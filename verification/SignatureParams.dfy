/** The parameters of a session request: SignatureParams::ToMap and
    BuildQueryStringWithSignature. */
module SignatureParams {
  import opened Basics
  import opened Query

  /** A parameter name: it needs no escaping. */
  type Name = k: string | PlainKey(k) witness ""

  const ALWAYS: seq<Name> := ["secretid", "timestamp", "expired", "nonce"]
  const ENGINE: seq<Name> := ["engine_model_type", "voice_id", "voice_format", "needvad"]
  const SDK: seq<Name> := ["platform", "sdk_lang", "sdk_type", "version"]
  const WORDS: seq<Name> := ["sdkappid", "hotword_id", "hotword_list", "customization_id", "replace_text_id"]
  const FILTERS: seq<Name> := ["filter_dirty", "filter_modal", "filter_punc", "filter_empty_result"]
  const LIMITS: seq<Name> := ["convert_num_mode", "word_info", "vad_silence_time", "max_speak_time"]
  const LEVELS: seq<Name> := ["input_sample_rate", "vad_level", "noise_threshold"]
  const CONTEXT: seq<Name> := ["enable_speaker_context", "speaker_context_id"]
  const DIARIZATION: seq<Name> := ["speaker_diarization", "speaker_number"]
  const ROLES: seq<Name> := ["speaker_roles", "voiceprintids", "language"]

  /** The names ToMap can assign, in its order. */
  const NAMES: seq<Name> := ALWAYS + ENGINE + SDK + WORDS + FILTERS + LIMITS + LEVELS + CONTEXT + DIARIZATION + ROLES

  const SIGNATURE: Name := "signature"
  const USERSIG: Name := "usersig"

  /** One value for each name, or none where ToMap leaves it out. */
  type Values = v: seq<Option<ByteString>> | |v| == |NAMES| witness seq(|NAMES|, _ => None)

  /** The assignments of ToMap from the i-th on. */
  function Fill(m: seq<Entry>, values: Values, i: nat): seq<Entry>
    requires i <= |NAMES|
    decreases |NAMES| - i
  {
    if i == |NAMES| then m
    else Fill(if values[i] == None then m else Put(m, NAMES[i], values[i].value), values, i + 1)
  }

  function ToMap(values: Values): seq<Entry> {
    Fill([], values, 0)
  }

  function Signed(values: Values, userSig: ByteString): seq<Entry> {
    Put(Put(ToMap(values), SIGNATURE, userSig), USERSIG, userSig)
  }

  method BuildQueryStringWithSignature(values: Values, userSig: ByteString) returns (out: string)
    ensures out == Rest(Signed(values, userSig), 0)
  {
    var params := ToMap(values);
    params := Put(params, SIGNATURE, userSig);
    params := Put(params, USERSIG, userSig);
    out := BuildQuery(params);
  }

  // ------------------------------------------------------------------- keys

  /** The two names of the signing are none of ToMap's. */
  lemma Foreign()
    ensures SIGNATURE !in NAMES && USERSIG !in NAMES && SIGNATURE != USERSIG
  {
    ForeignTo();
    hide ALWAYS, ENGINE, SDK, WORDS, FILTERS, LIMITS, LEVELS, CONTEXT, DIARIZATION, ROLES;
  }

  lemma ForeignTo()
    ensures SIGNATURE !in ALWAYS && SIGNATURE !in ENGINE && SIGNATURE !in SDK && SIGNATURE !in WORDS
    ensures SIGNATURE !in FILTERS && SIGNATURE !in LIMITS && SIGNATURE !in LEVELS && SIGNATURE !in CONTEXT
    ensures SIGNATURE !in DIARIZATION && SIGNATURE !in ROLES
    ensures USERSIG !in ALWAYS && USERSIG !in ENGINE && USERSIG !in SDK && USERSIG !in WORDS
    ensures USERSIG !in FILTERS && USERSIG !in LIMITS && USERSIG !in LEVELS && USERSIG !in CONTEXT
    ensures USERSIG !in DIARIZATION && USERSIG !in ROLES
  {
  }

  predicate KeysIn(m: seq<Entry>) {
    forall i :: 0 <= i < |m| ==> m[i].key in NAMES
  }

  lemma {:induction false} PutKeys(m: seq<Entry>, k: ByteString, v: ByteString)
    requires PlainKeys(m) && PlainKey(k)
    ensures PlainKeys(Put(m, k, v))
    ensures KeysIn(m) && k in NAMES ==> KeysIn(Put(m, k, v))
  {
    hide NAMES;
    if m != [] && !Less(k, m[0].key) && m[0].key != k {
      PutKeys(m[1..], k, v);
    }
  }

  lemma {:induction false} FillKeys(m: seq<Entry>, values: Values, i: nat)
    requires i <= |NAMES| && Ascending(m) && PlainKeys(m) && KeysIn(m)
    ensures var n := Fill(m, values, i); Ascending(n) && PlainKeys(n) && KeysIn(n)
    decreases |NAMES| - i
  {
    if i < |NAMES| {
      if values[i] == None {
        FillKeys(m, values, i + 1);
      } else {
        PutKeeps(m, NAMES[i], values[i].value);
        PutKeys(m, NAMES[i], values[i].value);
        FillKeys(Put(m, NAMES[i], values[i].value), values, i + 1);
      }
    }
  }

  lemma {:induction false} GetForeign(m: seq<Entry>, k: ByteString)
    requires KeysIn(m) && k !in NAMES
    ensures Get(m, k) == None
  {
    hide NAMES;
    if m != [] {
      GetForeign(m[1..], k);
    }
  }

  /** Splitting and decoding the signed query gives back ToMap's parameters with
      their values, untouched, and two more: signature and usersig, both the
      UserSig; keys strictly ascending. */
  lemma SignedQuery(values: Values, userSig: ByteString)
    ensures var m, signed := ToMap(values), Signed(values, userSig);
            && ParseQuery(Rest(signed, 0)) == Pairs(signed) && Ascending(signed)
            && |signed| == |m| + 2
            && Get(signed, "signature") == Get(signed, "usersig") == Some(userSig)
            && forall k: ByteString :: k != "signature" && k != "usersig" ==> Get(signed, k) == Get(m, k)
  {
    hide NAMES;
    var m := ToMap(values);
    FillKeys([], values, 0);
    Foreign();
    GetForeign(m, SIGNATURE);
    GetForeign(m, USERSIG);
    var once := Put(m, SIGNATURE, userSig);
    PutKeeps(m, SIGNATURE, userSig);
    PutKeys(m, SIGNATURE, userSig);
    PutKeeps(once, USERSIG, userSig);
    PutKeys(once, USERSIG, userSig);
    PutGet(m, SIGNATURE, userSig, USERSIG);
    PutGet(once, USERSIG, userSig, SIGNATURE);
    PutGet(m, SIGNATURE, userSig, SIGNATURE);
    PutGet(once, USERSIG, userSig, USERSIG);
    forall k: ByteString | k != SIGNATURE && k != USERSIG
      ensures Get(Signed(values, userSig), k) == Get(m, k)
    {
      PutGet(once, USERSIG, userSig, k);
      PutGet(m, SIGNATURE, userSig, k);
    }
    ParseRest(Signed(values, userSig), 0);
    assert Signed(values, userSig)[0..] == Signed(values, userSig);
  }

  /** Every parameter given reaches the map: what is read back for a name is the
      last value assigned to it. */
  lemma {:induction false} FillGets(m: seq<Entry>, values: Values, i: nat, j: nat)
    requires i <= j < |NAMES| && Ascending(m) && values[j].Some?
    requires forall n :: j < n < |NAMES| && NAMES[n] == NAMES[j] ==> values[n] == None
    ensures Get(Fill(m, values, i), NAMES[j]) == values[j]
    decreases |NAMES| - i
  {
    if values[i] == None {
      FillGets(m, values, i + 1, j);
    } else {
      var n := Put(m, NAMES[i], values[i].value);
      PutKeeps(m, NAMES[i], values[i].value);
      if i < j {
        FillGets(n, values, i + 1, j);
      } else {
        PutGet(m, NAMES[i], values[i].value, NAMES[j]);
        FillLeaves(n, values, i + 1, NAMES[j]);
      }
    }
  }

  lemma {:induction false} FillLeaves(m: seq<Entry>, values: Values, i: nat, k: ByteString)
    requires i <= |NAMES| && Ascending(m)
    requires forall n :: i <= n < |NAMES| && NAMES[n] == k ==> values[n] == None
    ensures Get(Fill(m, values, i), k) == Get(m, k)
    decreases |NAMES| - i
  {
    if i < |NAMES| {
      if values[i] == None {
        FillLeaves(m, values, i + 1, k);
      } else {
        PutKeeps(m, NAMES[i], values[i].value);
        PutGet(m, NAMES[i], values[i].value, k);
        FillLeaves(Put(m, NAMES[i], values[i].value), values, i + 1, k);
      }
    }
  }
}
