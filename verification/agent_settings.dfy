/**
 * How the voice agent reads the portal's settings back out of the room
 * metadata when a job starts: the `owui_voice` object, the lenient coercions
 * of its values, the range filter on the numeric overrides (with the
 * endpointing delays put in order), the turn-detection mode and the voice.
 */
module AgentSettings {
  import opened Wrappers
  import opened PyText
  import opened JsonValue
  import opened JsonReader
  import opened JsonRoundTrip
  import opened PyJson
  import opened VoiceSettings

  const SettingsKey := "owui_voice"

  // ---------------------------------------------------------------------
  // Reading the metadata.
  // ---------------------------------------------------------------------

  /** `(room_metadata or "").strip()`. */
  function RawMetadata(metadata: Option<string>): string {
    Strip(if metadata.Some? then metadata.value else "")
  }

  /**
   * `_parse_room_voice_settings`: the `owui_voice` object of the metadata,
   * and `{}` whenever the metadata is blank, not JSON, not an object, or has
   * no object under `owui_voice`.
   */
  function ParseRoomVoiceSettings(metadata: Option<string>): (r: map<string, Json>)
    ensures RawMetadata(metadata) == "" ==> r == map[]
    ensures r != map[] ==>
      var parsed := Loads(RawMetadata(metadata));
      parsed.Some? && parsed.value.JObj? && SettingsKey in parsed.value.fields
      && parsed.value.fields[SettingsKey] == JObj(r)
    ensures var parsed := Loads(RawMetadata(metadata));
      RawMetadata(metadata) != "" && parsed.Some? && parsed.value.JObj?
      && SettingsKey in parsed.value.fields && parsed.value.fields[SettingsKey].JObj?
      ==> r == parsed.value.fields[SettingsKey].fields
    ensures var parsed := Loads(RawMetadata(metadata));
      parsed.None? || !parsed.value.JObj? ==> r == map[]
    ensures var parsed := Loads(RawMetadata(metadata));
      (parsed.Some? && parsed.value.JObj?
       && (SettingsKey !in parsed.value.fields || !parsed.value.fields[SettingsKey].JObj?)) ==> r == map[]
  {
    var raw := RawMetadata(metadata);
    if raw == "" then map[]
    else
      match Loads(raw)
      case Some(JObj(m)) =>
        if SettingsKey in m && m[SettingsKey].JObj? then m[SettingsKey].fields else map[]
      case _ => map[]
  }

  /** The writer's output of an object starts with `{` and ends with `}`, so trimming leaves it alone. */
  lemma SerializedObjectTrimmed(m: map<string, Json>)
    ensures Strip(Serialize(JObj(m))) == Serialize(JObj(m))
  {
    var t := Serialize(JObj(m));
    SerializeStart(JObj(m));
    assert t[|t| - 1] == '}';
    StripNoEdgeSpace(t);
  }

  /** The agent reads back exactly the settings dictionary the portal encoded. */
  lemma MetadataRoundTrip(v: VoiceQuery)
    ensures ParseRoomVoiceSettings(Some(EncodeMetadata(v))) == ToDict(v)
  {
    ToDictEmpty(v);
    if !NoSettings(v) {
      var outer := map[SettingsKey := JObj(ToDict(v))];
      assert EncodeMetadata(v) == Serialize(JObj(outer));
      SerializedObjectTrimmed(outer);
      ToDictValid(v);
      LoadsSerialize(JObj(outer));
    }
  }

  // ---------------------------------------------------------------------
  // Coercions.
  // ---------------------------------------------------------------------

  const TrueWords: set<string> := {"1", "true", "yes", "y", "on"}
  const FalseWords: set<string> := {"0", "false", "no", "n", "off"}

  /** `_coerce_bool`: booleans as they are, a handful of words, and nothing else. */
  function CoerceBool(j: Json): (r: Option<bool>)
    ensures j.JBool? ==> r == Some(j.b)
    ensures j.JStr? ==> (r == Some(true) <==> Lower(Strip(j.s)) in TrueWords)
    ensures j.JStr? ==> (r == Some(false) <==> Lower(Strip(j.s)) in FalseWords)
    ensures !j.JBool? && !j.JStr? ==> r.None?
  {
    match j
    case JBool(b) => Some(b)
    case JStr(s) =>
      var word := Lower(Strip(s));
      if word in TrueWords then Some(true)
      else if word in FalseWords then Some(false)
      else None
    case _ => None
  }

  /**
   * `_coerce_float`: numbers by value, text through Python's `float()`
   * (supplied as `parseFloat`, `None` where it raises), anything else `None`.
   */
  function CoerceFloat(j: Json, parseFloat: string -> Option<real>): (r: Option<real>)
    ensures j.JInt? ==> r == Some(j.i as real)
    ensures j.JFloat? ==> r == Some(DecimalValue(j.f))
    ensures j.JStr? ==> r == parseFloat(Strip(j.s))
    ensures j.JNull? || j.JBool? || j.JArr? || j.JObj? ==> r.None?
  {
    match j
    case JInt(i) => Some(i as real)
    case JFloat(f) => Some(DecimalValue(f))
    case JStr(s) => parseFloat(Strip(s))
    case _ => None
  }

  lemma {:induction false} Pow10Agree(k: nat)
    ensures Pow10Real(k) == Pow10(k) as real
    ensures Pow10Real(-(k as int)) * Pow10(k) as real == 1.0
  {
    if k > 0 {
      Pow10Agree(k - 1);
      assert Pow10Real(-(k as int)) == Pow10Real(-((k - 1) as int)) / 10.0;
    }
  }

  /** A multiple of `10^k` with `k >= 1` is a multiple of ten. */
  lemma {:induction false} Pow10Multiple(m: int, k: nat)
    requires k >= 1 && m % Pow10(k) == 0
    ensures m % 10 == 0
  {
    var p := Pow10(k - 1);
    var q := m / Pow10(k);
    assert m == q * Pow10(k);
    assert m == (q * p) * 10;
  }

  /** Multiplying by a factor and then by its inverse gives the number back. */
  lemma CancelFactor(q: int, p: int, inv: real)
    requires p as real * inv == 1.0
    ensures (q * p) as real * inv == q as real
  {
    assert (q * p) as real == q as real * p as real;
    assert q as real * p as real * inv == q as real * (p as real * inv);
  }

  /** Dividing out an exact power of ten gives the value of the decimal. */
  lemma ExactQuotient(q: int, k: nat)
    ensures DecimalValue(Decimal(q * Pow10(k), -(k as int))) == q as real
  {
    Pow10Agree(k);
    CancelFactor(q, Pow10(k), Pow10Real(-(k as int)));
  }

  /** Python's `float.is_integer()` followed by `int()`, for a decimal. */
  function FloatToInt(f: Decimal): (r: Option<int>)
    ensures r.Some? ==> r.value as real == DecimalValue(f)
    ensures f.exponent >= 0 ==> r.Some?
    ensures f.Canonical() ==> (r.Some? <==> f.exponent >= 0)
  {
    if f.exponent >= 0 then
      Pow10Agree(f.exponent);
      Some(f.mantissa * Pow10(f.exponent))
    else
      var k: nat := -f.exponent;
      if f.mantissa % Pow10(k) == 0 then
        assert f.mantissa == (f.mantissa / Pow10(k)) * Pow10(k);
        ExactQuotient(f.mantissa / Pow10(k), k);
        assert f.Canonical() ==> f.mantissa == 0 by {
          if f.mantissa != 0 && f.Canonical() { Pow10Multiple(f.mantissa, k); }
        }
        Some(f.mantissa / Pow10(k))
      else None
  }

  /** Python's `int()` on text already trimmed: an optional sign and decimal digits. */
  function ParseIntText(t: string): (r: Option<int>)
    ensures r.Some? ==> t != []
  {
    if t != [] && (t[0] == '-' || t[0] == '+') then
      var ds := t[1..];
      if ds != [] && AllDigits(ds) then Some(if t[0] == '-' then -(DigitsValue(ds) as int) else DigitsValue(ds))
      else None
    else if t != [] && AllDigits(t) then Some(DigitsValue(t))
    else None
  }

  /** `int(str(i)) == i`. */
  lemma IntTextRoundTrip(i: int)
    ensures ParseIntText(IntToString(i)) == Some(i)
  {
    var n: nat := if i < 0 then -i else i;
    DigitsRoundTrip(n);
    NatDigitsShape(n);
    if i < 0 {
      SignedText(n);
    }
  }

  /** A minus sign in front of a number's digits. */
  lemma SignedText(n: nat)
    ensures var t := "-" + NatDigits(n);
      t != [] && t[0] == '-' && t[1..] == NatDigits(n)
  {
    assert ("-" + NatDigits(n))[1..] == NatDigits(n);
  }

  /** `_coerce_int`: integers, integral floats and integer text; anything else `None`. */
  function CoerceInt(j: Json): (r: Option<int>)
    ensures j.JInt? ==> r == Some(j.i)
    ensures j.JFloat? ==> r == FloatToInt(j.f)
    ensures j.JStr? ==> r == ParseIntText(Strip(j.s))
    ensures j.JNull? || j.JBool? || j.JArr? || j.JObj? ==> r.None?
  {
    match j
    case JInt(i) => Some(i)
    case JFloat(f) => FloatToInt(f)
    case JStr(s) => ParseIntText(Strip(s))
    case _ => None
  }

  /** The text of an integer, with or without surrounding blanks, coerces to that integer. */
  lemma CoerceIntText(i: int)
    ensures CoerceInt(JStr(IntToString(i))) == Some(i)
  {
    var t := IntToString(i);
    NatDigitsShape(if i < 0 then -i else i);
    StripNoEdgeSpace(t);
    IntTextRoundTrip(i);
  }

  // ---------------------------------------------------------------------
  // The session options.
  // ---------------------------------------------------------------------

  /** The agent's own defaults, from its environment. */
  datatype AgentDefaults = AgentDefaults(turnDetection: string, ttsVoice: string)

  /** What `_turn_detection` hands the session. */
  datatype TurnDetector = MultilingualModel | SttTurns

  /** The keyword arguments of the session beyond the models. */
  datatype SessionOptions = SessionOptions(
    turnDetection: TurnDetector,
    allowInterruptions: Option<bool>,
    minEndpointingDelay: Option<real>,
    maxEndpointingDelay: Option<real>,
    minInterruptionDuration: Option<real>,
    minInterruptionWords: Option<int>)

  /** `d.get(k, default)`. */
  function GetOr(m: map<string, Json>, k: string, default: Json): (r: Json)
    ensures k in m ==> r == m[k]
    ensures k !in m ==> r == default
  {
    if k in m then m[k] else default
  }

  /**
   * The turn-detection mode: the trimmed, lower-cased setting, or the
   * agent's default when that is empty. `containerStr` is Python's `str` of
   * a list or dict.
   */
  function TurnMode(settings: map<string, Json>, defaults: AgentDefaults, containerStr: Json -> string): (mode: string)
    ensures mode == defaults.turnDetection || mode != ""
  {
    var mode := Lower(Strip(PyStr(GetOr(settings, Name(TurnDetection), JStr("")), containerStr)));
    if mode == "" then defaults.turnDetection else mode
  }

  /**
   * `_turn_detection`: the multilingual model for `ml`/`multilingual` when
   * it can be loaded (`mlAvailable`), speech-to-text turns otherwise.
   */
  function Detector(mode: string, mlAvailable: bool): (d: TurnDetector)
    ensures d == MultilingualModel <==> (mode == "ml" || mode == "multilingual") && mlAvailable
  {
    if (mode == "ml" || mode == "multilingual") && mlAvailable then MultilingualModel else SttTurns
  }

  /** The voice: the trimmed setting, or the agent's default when that is empty. */
  function ResolvedVoice(settings: map<string, Json>, defaults: AgentDefaults, containerStr: Json -> string): (voice: string)
    ensures voice == defaults.ttsVoice || voice != ""
  {
    var voice := Strip(PyStr(GetOr(settings, Name(TtsVoice), JStr("")), containerStr));
    if voice == "" then defaults.ttsVoice else voice
  }

  /** An override is kept only when it lies in `[0, hi]`. */
  function InRange(x: Option<real>, hi: real): (r: Option<real>)
    ensures r.Some? ==> r == x && 0.0 <= r.value <= hi
    ensures x.Some? && 0.0 <= x.value <= hi ==> r == x
  {
    if x.Some? && 0.0 <= x.value <= hi then x else None
  }

  function WordsInRange(x: Option<int>): (r: Option<int>)
    ensures r.Some? ==> r == x && 0 <= r.value <= 50
    ensures x.Some? && 0 <= x.value <= 50 ==> r == x
  {
    if x.Some? && 0 <= x.value <= 50 then x else None
  }

  /** The endpointing delays kept by the range filter, before they are put in order. */
  function KeptDelays(settings: map<string, Json>, parseFloat: string -> Option<real>): (Option<real>, Option<real>) {
    (InRange(CoerceFloat(PyGet(settings, Name(MinEndpointingDelay)), parseFloat), 10.0),
     InRange(CoerceFloat(PyGet(settings, Name(MaxEndpointingDelay)), parseFloat), 10.0))
  }

  /** The two kept endpointing delays, swapped when the minimum exceeds the maximum. */
  function Ordered(lo: Option<real>, hi: Option<real>): (r: (Option<real>, Option<real>))
    ensures (r.0.Some? <==> lo.Some?) && (r.1.Some? <==> hi.Some?)
    ensures r.0.Some? && r.1.Some? ==> r.0.value <= r.1.value
    ensures lo.Some? && hi.Some? ==> multiset{r.0.value, r.1.value} == multiset{lo.value, hi.value}
    ensures lo.None? || hi.None? ==> r == (lo, hi)
  {
    if lo.Some? && hi.Some? && lo.value > hi.value then (hi, lo) else (lo, hi)
  }

  /** The session options the agent derives from the settings. */
  function SessionOptionsFor(settings: map<string, Json>, defaults: AgentDefaults, mlAvailable: bool,
                             parseFloat: string -> Option<real>, containerStr: Json -> string): SessionOptions
  {
    var delays := Ordered(KeptDelays(settings, parseFloat).0, KeptDelays(settings, parseFloat).1);
    SessionOptions(
      Detector(TurnMode(settings, defaults, containerStr), mlAvailable),
      CoerceBool(PyGet(settings, Name(AllowInterruptions))),
      delays.0,
      delays.1,
      InRange(CoerceFloat(PyGet(settings, Name(MinInterruptionDuration)), parseFloat), 10.0),
      WordsInRange(CoerceInt(PyGet(settings, Name(MinInterruptionWords)))))
  }

  /**
   * Every numeric override the session receives lies within its range, and
   * the two endpointing delays, when both are kept, are the kept values in order.
   */
  lemma SessionOptionsInRange(settings: map<string, Json>, defaults: AgentDefaults, mlAvailable: bool,
                              parseFloat: string -> Option<real>, containerStr: Json -> string)
    ensures var o := SessionOptionsFor(settings, defaults, mlAvailable, parseFloat, containerStr);
      && (o.minEndpointingDelay.Some? ==> 0.0 <= o.minEndpointingDelay.value <= 10.0)
      && (o.maxEndpointingDelay.Some? ==> 0.0 <= o.maxEndpointingDelay.value <= 10.0)
      && (o.minInterruptionDuration.Some? ==> 0.0 <= o.minInterruptionDuration.value <= 10.0)
      && (o.minInterruptionWords.Some? ==> 0 <= o.minInterruptionWords.value <= 50)
      && (o.minEndpointingDelay.Some? && o.maxEndpointingDelay.Some? ==>
            o.minEndpointingDelay.value <= o.maxEndpointingDelay.value)
  {
    var (lo, hi) := KeptDelays(settings, parseFloat);
    var r := Ordered(lo, hi);
    assert lo.Some? && hi.Some? ==> r.0.value in multiset{lo.value, hi.value} && r.1.value in multiset{lo.value, hi.value};
  }

  /** The session keyword arguments, filled in one guarded step at a time and then put in order. */
  method BuildSessionOptions(settings: map<string, Json>, defaults: AgentDefaults, mlAvailable: bool,
                             parseFloat: string -> Option<real>, containerStr: Json -> string)
    returns (o: SessionOptions)
    ensures o == SessionOptionsFor(settings, defaults, mlAvailable, parseFloat, containerStr)
  {
    var allow := CoerceBool(PyGet(settings, Name(AllowInterruptions)));
    var minDelay := CoerceFloat(PyGet(settings, Name(MinEndpointingDelay)), parseFloat);
    var maxDelay := CoerceFloat(PyGet(settings, Name(MaxEndpointingDelay)), parseFloat);
    var duration := CoerceFloat(PyGet(settings, Name(MinInterruptionDuration)), parseFloat);
    var words := CoerceInt(PyGet(settings, Name(MinInterruptionWords)));
    var allowKw: Option<bool> := None;
    var minKw: Option<real> := None;
    var maxKw: Option<real> := None;
    var durationKw: Option<real> := None;
    var wordsKw: Option<int> := None;
    if allow.Some? {
      allowKw := allow;
    }
    if minDelay.Some? && 0.0 <= minDelay.value <= 10.0 {
      minKw := minDelay;
    }
    assert minKw == InRange(minDelay, 10.0);
    if maxDelay.Some? && 0.0 <= maxDelay.value <= 10.0 {
      maxKw := maxDelay;
    }
    assert maxKw == InRange(maxDelay, 10.0);
    if duration.Some? && 0.0 <= duration.value <= 10.0 {
      durationKw := duration;
    }
    assert durationKw == InRange(duration, 10.0);
    if words.Some? && 0 <= words.value <= 50 {
      wordsKw := words;
    }
    assert wordsKw == WordsInRange(words);
    assert (minKw, maxKw) == KeptDelays(settings, parseFloat);
    if minKw.Some? && maxKw.Some? && minKw.value > maxKw.value {
      minKw, maxKw := maxKw, minKw;
    }
    assert (minKw, maxKw) == Ordered(KeptDelays(settings, parseFloat).0, KeptDelays(settings, parseFloat).1);
    o := SessionOptions(Detector(TurnMode(settings, defaults, containerStr), mlAvailable),
                        allowKw, minKw, maxKw, durationKw, wordsKw);
  }

  // ---------------------------------------------------------------------
  // The portal and the agent agree.
  // ---------------------------------------------------------------------

  /** The real number a stored delay stands for. */
  function RealOf(d: Option<Float>): (r: Option<real>)
    ensures r.Some? <==> d.Some?
  {
    if d.Some? then Some(DecimalValue(d.value)) else None
  }

  /** The value the agent reads under a setting's key. */
  lemma ReadSetting(v: VoiceQuery, s: Setting)
    ensures PyGet(ToDict(v), Name(s)) == if Field(v, s).Some? then Field(v, s).value else JNull
  {
  }

  /** Delays within range and in order are kept as they are. */
  lemma DictDelays(v: VoiceQuery, parseFloat: string -> Option<real>)
    requires DelayInRange(v.minEndpointingDelay) && DelayInRange(v.maxEndpointingDelay) && !DelaysInverted(v)
    ensures KeptDelays(ToDict(v), parseFloat) == (RealOf(v.minEndpointingDelay), RealOf(v.maxEndpointingDelay))
  {
    ReadSetting(v, MinEndpointingDelay);
    ReadSetting(v, MaxEndpointingDelay);
  }

  lemma DictAllow(v: VoiceQuery)
    ensures CoerceBool(PyGet(ToDict(v), Name(AllowInterruptions))) == v.allowInterruptions
  {
    ReadSetting(v, AllowInterruptions);
  }

  lemma DictDuration(v: VoiceQuery, parseFloat: string -> Option<real>)
    requires DelayInRange(v.minInterruptionDuration)
    ensures InRange(CoerceFloat(PyGet(ToDict(v), Name(MinInterruptionDuration)), parseFloat), 10.0)
      == RealOf(v.minInterruptionDuration)
  {
    ReadSetting(v, MinInterruptionDuration);
  }

  lemma DictWords(v: VoiceQuery)
    requires v.minInterruptionWords.None? || 0 <= v.minInterruptionWords.value <= 50
    ensures WordsInRange(CoerceInt(PyGet(ToDict(v), Name(MinInterruptionWords)))) == v.minInterruptionWords
  {
    ReadSetting(v, MinInterruptionWords);
  }

  /** The session options derived from a dictionary the portal wrote, field by field. */
  lemma DictOptions(v: VoiceQuery, defaults: AgentDefaults, mlAvailable: bool,
                    parseFloat: string -> Option<real>, containerStr: Json -> string)
    requires QueryInRange(v) && !DelaysInverted(v)
    ensures var o := SessionOptionsFor(ToDict(v), defaults, mlAvailable, parseFloat, containerStr);
      && o.allowInterruptions == v.allowInterruptions
      && o.minEndpointingDelay == RealOf(v.minEndpointingDelay)
      && o.maxEndpointingDelay == RealOf(v.maxEndpointingDelay)
      && o.minInterruptionDuration == RealOf(v.minInterruptionDuration)
      && o.minInterruptionWords == v.minInterruptionWords
  {
    DictDelays(v, parseFloat);
    var lo, hi := RealOf(v.minEndpointingDelay), RealOf(v.maxEndpointingDelay);
    assert Ordered(lo, hi) == (lo, hi);
    DictAllow(v);
    DictDuration(v, parseFloat);
    DictWords(v);
  }

  /** The numeric settings the portal accepted reach the session unchanged and unswapped. */
  lemma AgentKeepsNumbers(q: VoiceQuery, defaults: AgentDefaults, mlAvailable: bool,
                          parseFloat: string -> Option<real>, containerStr: Json -> string)
    requires QueryInRange(q) && BuildVoiceSettings(q).Ok?
    ensures var v := BuildVoiceSettings(q).value;
      var o := SessionOptionsFor(ParseRoomVoiceSettings(Some(EncodeMetadata(v))), defaults, mlAvailable, parseFloat, containerStr);
      && o.allowInterruptions == v.allowInterruptions
      && o.minEndpointingDelay == RealOf(v.minEndpointingDelay)
      && o.maxEndpointingDelay == RealOf(v.maxEndpointingDelay)
      && o.minInterruptionDuration == RealOf(v.minInterruptionDuration)
      && o.minInterruptionWords == v.minInterruptionWords
  {
    var v := BuildVoiceSettings(q).value;
    BuildNumericValues(q);
    MetadataRoundTrip(v);
    DictOptions(v, defaults, mlAvailable, parseFloat, containerStr);
  }

  /** A stored mode is already trimmed and lower case, so the agent uses it as it is. */
  lemma DictTurnMode(v: VoiceQuery, defaults: AgentDefaults, containerStr: Json -> string)
    requires v.turnDetection in {None, Some("ml"), Some("stt")}
    ensures TurnMode(ToDict(v), defaults, containerStr)
      == if v.turnDetection.Some? then v.turnDetection.value else defaults.turnDetection
  {
    ReadSetting(v, TurnDetection);
    if v.turnDetection.Some? {
      NormalText(v.turnDetection.value);
    } else {
      assert Lower(Strip("")) == "";
    }
  }

  /** A voice stored trimmed and not blank is used as it is; an absent one falls back. */
  lemma StoredVoice(settings: map<string, Json>, defaults: AgentDefaults, containerStr: Json -> string, voice: Option<string>)
    requires voice.Some? ==> GetOr(settings, Name(TtsVoice), JStr("")) == JStr(voice.value) && Strip(voice.value) == voice.value != ""
    requires voice.None? ==> GetOr(settings, Name(TtsVoice), JStr("")) == JStr("")
    ensures ResolvedVoice(settings, defaults, containerStr) == if voice.Some? then voice.value else defaults.ttsVoice
  {
    if voice.None? {
      assert Strip("") == "";
    }
  }

  /** A stored voice is already trimmed and not blank, so the agent uses it as it is. */
  lemma DictVoice(v: VoiceQuery, defaults: AgentDefaults, containerStr: Json -> string)
    requires v.ttsVoice.Some? ==> Strip(v.ttsVoice.value) == v.ttsVoice.value != ""
    ensures ResolvedVoice(ToDict(v), defaults, containerStr)
      == if v.ttsVoice.Some? then v.ttsVoice.value else defaults.ttsVoice
  {
    ReadSetting(v, TtsVoice);
    StoredVoice(ToDict(v), defaults, containerStr, v.ttsVoice);
  }

  /** The turn-detection mode and the voice the portal stored are the ones the agent uses; absent ones fall back. */
  lemma AgentKeepsTexts(q: VoiceQuery, defaults: AgentDefaults, containerStr: Json -> string)
    requires BuildVoiceSettings(q).Ok?
    ensures var v := BuildVoiceSettings(q).value;
      var settings := ParseRoomVoiceSettings(Some(EncodeMetadata(v)));
      && TurnMode(settings, defaults, containerStr) == (if v.turnDetection.Some? then v.turnDetection.value else defaults.turnDetection)
      && ResolvedVoice(settings, defaults, containerStr) == (if v.ttsVoice.Some? then v.ttsVoice.value else defaults.ttsVoice)
  {
    var v := BuildVoiceSettings(q).value;
    BuildTextValues(q);
    MetadataRoundTrip(v);
    DictTurnMode(v, defaults, containerStr);
    if v.ttsVoice.Some? {
      StripIdempotent(q.ttsVoice.value);
    }
    DictVoice(v, defaults, containerStr);
  }
}
