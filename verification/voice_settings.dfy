/**
 * The portal's voice-session settings: the query parameters of `/token` and
 * `/apply` checked and normalised into the settings dictionary, and the room
 * metadata text that carries them to the agent.
 */
module VoiceSettings {
  import opened Wrappers
  import opened PyText
  import opened JsonValue
  import opened JsonReader
  import opened JsonRoundTrip
  import opened PyJson

  /** An HTTP error response: its status code and its `detail` text. */
  datatype HttpError = HttpError(status: int, detail: string)

  /**
   * The voice-session parameters. As a query they are what FastAPI hands the
   * handler; as settings they are the normalised dictionary, where `None`
   * means the key is absent.
   */
  datatype VoiceQuery = VoiceQuery(
    llmModel: Option<string>,
    turnDetection: Option<string>,
    allowInterruptions: Option<bool>,
    minEndpointingDelay: Option<Float>,
    maxEndpointingDelay: Option<Float>,
    minInterruptionDuration: Option<Float>,
    minInterruptionWords: Option<int>,
    ttsVoice: Option<string>)

  const Glm46Aliases: set<string> := {"4.6", "glm4.6", "glm-4.6", "zai-glm-4.6"}
  const Glm47Aliases: set<string> := {"4.7", "glm4.7", "glm-4.7", "zai-glm-4.7"}
  const MaxTtsVoiceLength := 256

  const LlmModelError := HttpError(400, "Invalid llm_model (allowed: glm-4.6, glm-4.7)")
  const TurnDetectionError := HttpError(400, "Invalid turn_detection (allowed: stt, ml)")
  const TtsVoiceError := HttpError(400, "tts_voice is too long")
  const DelayOrderError := HttpError(400, "Invalid endpointing delays (min_endpointing_delay > max_endpointing_delay)")

  // ---------------------------------------------------------------------
  // Query validation (FastAPI's `Query(ge=…, le=…)`, answered with 422).
  // ---------------------------------------------------------------------

  predicate DelayInRange(d: Option<Float>) {
    d.None? || 0.0 <= DecimalValue(d.value) <= 10.0
  }

  /** Every bounded query parameter lies within its declared range. */
  predicate QueryInRange(q: VoiceQuery) {
    DelayInRange(q.minEndpointingDelay) && DelayInRange(q.maxEndpointingDelay)
    && DelayInRange(q.minInterruptionDuration)
    && (q.minInterruptionWords.None? || 0 <= q.minInterruptionWords.value <= 50)
  }

  // ---------------------------------------------------------------------
  // One function per normalised parameter.
  // ---------------------------------------------------------------------

  /** `llm_model`: blank is omitted, a known alias maps to its model id. */
  function LlmModelSetting(raw: Option<string>): Result<Option<string>, HttpError> {
    if raw.None? || Strip(raw.value) == "" then Ok(None)
    else
      var lowered := Lower(Strip(raw.value));
      if lowered in Glm46Aliases then Ok(Some("zai-glm-4.6"))
      else if lowered in Glm47Aliases then Ok(Some("zai-glm-4.7"))
      else Err(LlmModelError)
  }

  /** `turn_detection`: only an absent or empty value is omitted; blank text is rejected. */
  function TurnDetectionSetting(raw: Option<string>): Result<Option<string>, HttpError> {
    if raw.None? || raw.value == "" then Ok(None)
    else
      var mode := Lower(Strip(raw.value));
      if mode == "ml" || mode == "multilingual" then Ok(Some("ml"))
      else if mode == "stt" then Ok(Some("stt"))
      else Err(TurnDetectionError)
  }

  /** `tts_voice`: trimmed; blank is omitted, more than 256 characters is rejected. */
  function TtsVoiceSetting(raw: Option<string>): Result<Option<string>, HttpError> {
    if raw.None? then Ok(None)
    else
      var voice := Strip(raw.value);
      if voice == "" then Ok(None)
      else if |voice| > MaxTtsVoiceLength then Err(TtsVoiceError)
      else Ok(Some(voice))
  }

  /** Both endpointing delays are given and the minimum exceeds the maximum. */
  predicate DelaysInverted(q: VoiceQuery) {
    q.minEndpointingDelay.Some? && q.maxEndpointingDelay.Some?
    && DecimalValue(q.minEndpointingDelay.value) > DecimalValue(q.maxEndpointingDelay.value)
  }

  /** The keys of the settings dictionary. */
  datatype Setting =
    | LlmModel | TurnDetection | AllowInterruptions | MinEndpointingDelay
    | MaxEndpointingDelay | MinInterruptionDuration | MinInterruptionWords | TtsVoice

  const AllSettings: set<Setting> := {
    LlmModel, TurnDetection, AllowInterruptions, MinEndpointingDelay,
    MaxEndpointingDelay, MinInterruptionDuration, MinInterruptionWords, TtsVoice
  }

  lemma AllSettingsComplete(s: Setting)
    ensures s in AllSettings
  {
    match s
    case LlmModel =>
    case TurnDetection =>
    case AllowInterruptions =>
    case MinEndpointingDelay =>
    case MaxEndpointingDelay =>
    case MinInterruptionDuration =>
    case MinInterruptionWords =>
    case TtsVoice =>
  }

  /** The dictionary key of a setting. */
  function Name(s: Setting): string {
    match s
    case LlmModel => "llm_model"
    case TurnDetection => "turn_detection"
    case AllowInterruptions => "allow_interruptions"
    case MinEndpointingDelay => "min_endpointing_delay"
    case MaxEndpointingDelay => "max_endpointing_delay"
    case MinInterruptionDuration => "min_interruption_duration"
    case MinInterruptionWords => "min_interruption_words"
    case TtsVoice => "tts_voice"
  }

  /** Different settings have different keys. */
  lemma NameInjective(s: Setting, t: Setting)
    requires Name(s) == Name(t)
    ensures s == t
  {
    var a, b := Name(s), Name(t);
    assert |a| == |b| && a[0] == b[0] && a[1] == b[1];
  }

  /** The JSON value stored under one key, if the key is present. */
  function Field(v: VoiceQuery, s: Setting): Option<Json> {
    match s
    case LlmModel => if v.llmModel.Some? then Some(JStr(v.llmModel.value)) else None
    case TurnDetection => if v.turnDetection.Some? then Some(JStr(v.turnDetection.value)) else None
    case AllowInterruptions => if v.allowInterruptions.Some? then Some(JBool(v.allowInterruptions.value)) else None
    case MinEndpointingDelay => if v.minEndpointingDelay.Some? then Some(JFloat(v.minEndpointingDelay.value)) else None
    case MaxEndpointingDelay => if v.maxEndpointingDelay.Some? then Some(JFloat(v.maxEndpointingDelay.value)) else None
    case MinInterruptionDuration =>
      if v.minInterruptionDuration.Some? then Some(JFloat(v.minInterruptionDuration.value)) else None
    case MinInterruptionWords => if v.minInterruptionWords.Some? then Some(JInt(v.minInterruptionWords.value)) else None
    case TtsVoice => if v.ttsVoice.Some? then Some(JStr(v.ttsVoice.value)) else None
  }

  /** No key is present: the dictionary is empty, and falsy. */
  predicate NoSettings(v: VoiceQuery) {
    v == VoiceQuery(None, None, None, None, None, None, None, None)
  }

  /** The settings as the Python dictionary: one string key per present setting. */
  function ToDict(v: VoiceQuery): (d: map<string, Json>)
    ensures forall s :: Name(s) in d <==> Field(v, s).Some?
    ensures forall s :: Name(s) in d ==> d[Name(s)] == Field(v, s).value
  {
    assert forall s, t :: Name(s) == Name(t) ==> s == t by {
      forall s, t | Name(s) == Name(t) ensures s == t { NameInjective(s, t); }
    }
    assert forall s :: s in AllSettings by {
      forall s ensures s in AllSettings { AllSettingsComplete(s); }
    }
    map s | s in AllSettings && Field(v, s).Some? :: Name(s) := Field(v, s).value
  }

  /** The dictionary is empty exactly when no setting is present. */
  lemma ToDictEmpty(v: VoiceQuery)
    ensures ToDict(v) == map[] <==> NoSettings(v)
  {
    var d := ToDict(v);
    if v.llmModel.Some? { assert Name(LlmModel) in d; }
    else if v.turnDetection.Some? { assert Name(TurnDetection) in d; }
    else if v.allowInterruptions.Some? { assert Name(AllowInterruptions) in d; }
    else if v.minEndpointingDelay.Some? { assert Name(MinEndpointingDelay) in d; }
    else if v.maxEndpointingDelay.Some? { assert Name(MaxEndpointingDelay) in d; }
    else if v.minInterruptionDuration.Some? { assert Name(MinInterruptionDuration) in d; }
    else if v.minInterruptionWords.Some? { assert Name(MinInterruptionWords) in d; }
    else if v.ttsVoice.Some? { assert Name(TtsVoice) in d; }
    else {
      NoFields(v);
      assert forall k :: k !in d;
    }
  }

  lemma NoFields(v: VoiceQuery)
    requires NoSettings(v)
    ensures forall s :: Field(v, s).None?
  {
    forall s ensures Field(v, s).None? {
      match s
      case LlmModel =>
      case TurnDetection =>
      case AllowInterruptions =>
      case MinEndpointingDelay =>
      case MaxEndpointingDelay =>
      case MinInterruptionDuration =>
      case MinInterruptionWords =>
      case TtsVoice =>
    }
  }

  /** The stored values determine the settings. */
  lemma FieldsDetermine(a: VoiceQuery, b: VoiceQuery)
    requires forall s :: Field(a, s) == Field(b, s)
    ensures a == b
  {
    assert Field(a, LlmModel) == Field(b, LlmModel);
    assert Field(a, TurnDetection) == Field(b, TurnDetection);
    assert Field(a, AllowInterruptions) == Field(b, AllowInterruptions);
    assert Field(a, MinEndpointingDelay) == Field(b, MinEndpointingDelay);
    assert Field(a, MaxEndpointingDelay) == Field(b, MaxEndpointingDelay);
    assert Field(a, MinInterruptionDuration) == Field(b, MinInterruptionDuration);
    assert Field(a, MinInterruptionWords) == Field(b, MinInterruptionWords);
    assert Field(a, TtsVoice) == Field(b, TtsVoice);
  }

  /** Different settings give different dictionaries. */
  lemma ToDictInjective(a: VoiceQuery, b: VoiceQuery)
    requires ToDict(a) == ToDict(b)
    ensures a == b
  {
    forall s ensures Field(a, s) == Field(b, s) {
      assert Name(s) in ToDict(a) <==> Name(s) in ToDict(b);
    }
    FieldsDetermine(a, b);
  }

  /** Every stored value is a string, bool, int or canonical float. */
  lemma ToDictValid(v: VoiceQuery)
    ensures Valid(JObj(ToDict(v)))
    ensures Valid(JObj(map["owui_voice" := JObj(ToDict(v))]))
  {
    var d := ToDict(v);
    forall k | k in d ensures Valid(d[k]) {
      var s :| s in AllSettings && Field(v, s).Some? && Name(s) == k;
      FieldValid(v, s);
    }
    var outer := map["owui_voice" := JObj(d)];
    assert forall k :: k in outer ==> Valid(outer[k]);
  }

  lemma FieldValid(v: VoiceQuery, s: Setting)
    requires Field(v, s).Some?
    ensures Valid(Field(v, s).value)
  {
  }

  /** `_build_voice_settings`: the checks in the source's order, then the normalised settings. */
  function BuildVoiceSettings(q: VoiceQuery): Result<VoiceQuery, HttpError> {
    var llm := LlmModelSetting(q.llmModel);
    var turn := TurnDetectionSetting(q.turnDetection);
    var voice := TtsVoiceSetting(q.ttsVoice);
    if llm.Err? then Err(llm.error)
    else if turn.Err? then Err(turn.error)
    else if voice.Err? then Err(voice.error)
    else if DelaysInverted(q) then Err(DelayOrderError)
    else Ok(q.(llmModel := llm.value, turnDetection := turn.value, ttsVoice := voice.value))
  }

  // ---------------------------------------------------------------------
  // One parameter at a time.
  // ---------------------------------------------------------------------

  /** Each rejected value, stated on the raw parameter. */
  lemma ParameterRejects(raw: Option<string>)
    ensures LlmModelSetting(raw).Err? <==>
      raw.Some? && Strip(raw.value) != ""
      && Lower(Strip(raw.value)) !in Glm46Aliases && Lower(Strip(raw.value)) !in Glm47Aliases
    ensures TurnDetectionSetting(raw).Err? <==>
      raw.Some? && raw.value != ""
      && Lower(Strip(raw.value)) !in {"ml", "multilingual", "stt"}
    ensures TtsVoiceSetting(raw).Err? <==> raw.Some? && |Strip(raw.value)| > MaxTtsVoiceLength
  {
  }

  /** An accepted `llm_model` is kept exactly when supplied and not blank, as the id of its alias set. */
  lemma LlmModelAccepted(raw: Option<string>)
    requires LlmModelSetting(raw).Ok?
    ensures LlmModelSetting(raw).value.Some? <==> raw.Some? && Strip(raw.value) != ""
    ensures LlmModelSetting(raw).value == Some("zai-glm-4.6") <==>
      raw.Some? && Lower(Strip(raw.value)) in Glm46Aliases
    ensures LlmModelSetting(raw).value == Some("zai-glm-4.7") <==>
      raw.Some? && Lower(Strip(raw.value)) in Glm47Aliases
    ensures LlmModelSetting(raw).value in {None, Some("zai-glm-4.6"), Some("zai-glm-4.7")}
  {
  }

  /** An accepted `turn_detection` is kept exactly when supplied and not empty, as `ml` or `stt`. */
  lemma TurnDetectionAccepted(raw: Option<string>)
    requires TurnDetectionSetting(raw).Ok?
    ensures TurnDetectionSetting(raw).value.Some? <==> raw.Some? && raw.value != ""
    ensures TurnDetectionSetting(raw).value == Some("ml") <==>
      raw.Some? && raw.value != "" && Lower(Strip(raw.value)) in {"ml", "multilingual"}
    ensures TurnDetectionSetting(raw).value in {None, Some("ml"), Some("stt")}
  {
  }

  /** An accepted `tts_voice` is kept exactly when supplied and not blank, trimmed and at most 256 long. */
  lemma TtsVoiceAccepted(raw: Option<string>)
    requires TtsVoiceSetting(raw).Ok?
    ensures TtsVoiceSetting(raw).value.Some? <==> raw.Some? && Strip(raw.value) != ""
    ensures TtsVoiceSetting(raw).value.Some? ==>
      TtsVoiceSetting(raw).value.value == Strip(raw.value) && |Strip(raw.value)| <= MaxTtsVoiceLength
  {
  }

  /** The four stored texts are trimmed, lower case and not blank. */
  lemma NormalText(v: string)
    requires v == "zai-glm-4.6" || v == "zai-glm-4.7" || v == "ml" || v == "stt"
    ensures Strip(v) == v && Lower(Strip(v)) == v && v != ""
  {
    if v == "zai-glm-4.6" { Glm46Text(v); }
    else if v == "zai-glm-4.7" { Glm47Text(v); }
    else if v == "ml" { MlText(v); }
    else { SttText(v); }
  }

  lemma Glm46Text(v: string)
    requires v == "zai-glm-4.6"
    ensures Strip(v) == v && Lower(Strip(v)) == v
  {
    StripLowerFixed(v);
  }

  lemma Glm47Text(v: string)
    requires v == "zai-glm-4.7"
    ensures Strip(v) == v && Lower(Strip(v)) == v
  {
    StripLowerFixed(v);
  }

  lemma MlText(v: string)
    requires v == "ml"
    ensures Strip(v) == v && Lower(Strip(v)) == v
  {
    StripLowerFixed(v);
  }

  lemma SttText(v: string)
    requires v == "stt"
    ensures Strip(v) == v && Lower(Strip(v)) == v
  {
    StripLowerFixed(v);
  }

  /** The stored model ids pass the check unchanged. */
  lemma LlmModelFixed(v: string)
    requires v == "zai-glm-4.6" || v == "zai-glm-4.7"
    ensures LlmModelSetting(Some(v)) == Ok(Some(v))
  {
    if v == "zai-glm-4.6" { Glm46Fixed(v); } else { Glm47Fixed(v); }
  }

  lemma Glm46Fixed(v: string)
    requires v == "zai-glm-4.6"
    ensures LlmModelSetting(Some(v)) == Ok(Some(v))
  {
    NormalText(v);
    assert v in Glm46Aliases;
  }

  lemma Glm47Fixed(v: string)
    requires v == "zai-glm-4.7"
    ensures LlmModelSetting(Some(v)) == Ok(Some(v))
  {
    NormalText(v);
    assert v !in Glm46Aliases;
    assert v in Glm47Aliases;
  }

  /** The stored turn-detection modes pass the check unchanged. */
  lemma TurnDetectionFixed(v: string)
    requires v == "ml" || v == "stt"
    ensures TurnDetectionSetting(Some(v)) == Ok(Some(v))
  {
    if v == "ml" { MlFixed(v); } else { SttFixed(v); }
  }

  lemma MlFixed(v: string)
    requires v == "ml"
    ensures TurnDetectionSetting(Some(v)) == Ok(Some(v))
  {
    NormalText(v);
  }

  lemma SttFixed(v: string)
    requires v == "stt"
    ensures TurnDetectionSetting(Some(v)) == Ok(Some(v))
  {
    NormalText(v);
  }

  /** A stored voice passes the check unchanged. */
  lemma TtsVoiceFixed(raw: Option<string>)
    requires TtsVoiceSetting(raw).Ok? && TtsVoiceSetting(raw).value.Some?
    ensures TtsVoiceSetting(TtsVoiceSetting(raw).value) == TtsVoiceSetting(raw)
  {
    StripIdempotent(raw.value);
  }

  // ---------------------------------------------------------------------
  // What the settings mean.
  // ---------------------------------------------------------------------

  /** The request is rejected exactly when one of the four checks fails, always with 400. */
  lemma BuildRejects(q: VoiceQuery)
    ensures BuildVoiceSettings(q).Err? <==>
      LlmModelSetting(q.llmModel).Err? || TurnDetectionSetting(q.turnDetection).Err?
      || TtsVoiceSetting(q.ttsVoice).Err? || DelaysInverted(q)
    ensures BuildVoiceSettings(q).Err? ==> BuildVoiceSettings(q).error.status == 400
    ensures DelaysInverted(q) && BuildVoiceSettings(q).Err?
        && BuildVoiceSettings(q).error != DelayOrderError
        ==> LlmModelSetting(q.llmModel).Err? || TurnDetectionSetting(q.turnDetection).Err?
            || TtsVoiceSetting(q.ttsVoice).Err?
  {
  }

  /** A turn-detection value made only of whitespace is rejected, unlike a blank model or voice. */
  lemma BlankTurnDetectionRejected()
    ensures BuildVoiceSettings(VoiceQuery(None, Some(" "), None, None, None, None, None, None)).Err?
    ensures var r := BuildVoiceSettings(VoiceQuery(Some(" "), None, None, None, None, None, None, Some(" ")));
      r.Ok? && NoSettings(r.value)
  {
    assert Strip(" ") == "";
    assert Lower("") == "";
  }

  /** Accepted text settings: kept exactly when supplied and not blank, and in normal form. */
  lemma BuildTextValues(q: VoiceQuery)
    requires BuildVoiceSettings(q).Ok?
    ensures var v := BuildVoiceSettings(q).value;
      && (v.llmModel.Some? <==> q.llmModel.Some? && Strip(q.llmModel.value) != "")
      && (v.llmModel == Some("zai-glm-4.6") <==> q.llmModel.Some? && Lower(Strip(q.llmModel.value)) in Glm46Aliases)
      && (v.llmModel == Some("zai-glm-4.7") <==> q.llmModel.Some? && Lower(Strip(q.llmModel.value)) in Glm47Aliases)
      && (v.turnDetection.Some? <==> q.turnDetection.Some? && q.turnDetection.value != "")
      && (v.turnDetection == Some("ml") <==>
            q.turnDetection.Some? && q.turnDetection.value != ""
            && Lower(Strip(q.turnDetection.value)) in {"ml", "multilingual"})
      && v.turnDetection in {None, Some("ml"), Some("stt")}
      && (v.ttsVoice.Some? <==> q.ttsVoice.Some? && Strip(q.ttsVoice.value) != "")
      && (v.ttsVoice.Some? ==> v.ttsVoice.value == Strip(q.ttsVoice.value) && |v.ttsVoice.value| <= MaxTtsVoiceLength)
  {
    LlmModelAccepted(q.llmModel);
    TurnDetectionAccepted(q.turnDetection);
    TtsVoiceAccepted(q.ttsVoice);
  }

  /** Accepted flags and numbers are kept as given, and kept delays are ordered. */
  lemma BuildNumericValues(q: VoiceQuery)
    requires BuildVoiceSettings(q).Ok?
    ensures var v := BuildVoiceSettings(q).value;
      && v.allowInterruptions == q.allowInterruptions
      && v.minEndpointingDelay == q.minEndpointingDelay && v.maxEndpointingDelay == q.maxEndpointingDelay
      && v.minInterruptionDuration == q.minInterruptionDuration
      && v.minInterruptionWords == q.minInterruptionWords
      && !DelaysInverted(v)
  {
  }

  /** Normalising is idempotent: asking again with accepted settings gives the same settings. */
  lemma BuildIdempotent(q: VoiceQuery)
    requires BuildVoiceSettings(q).Ok?
    ensures BuildVoiceSettings(BuildVoiceSettings(q).value) == BuildVoiceSettings(q)
  {
    var v := BuildVoiceSettings(q).value;
    assert LlmModelSetting(v.llmModel) == Ok(v.llmModel) by {
      LlmModelAccepted(q.llmModel);
      if v.llmModel.Some? { LlmModelFixed(v.llmModel.value); }
    }
    assert TurnDetectionSetting(v.turnDetection) == Ok(v.turnDetection) by {
      TurnDetectionAccepted(q.turnDetection);
      if v.turnDetection.Some? { TurnDetectionFixed(v.turnDetection.value); }
    }
    assert TtsVoiceSetting(v.ttsVoice) == Ok(v.ttsVoice) by {
      if v.ttsVoice.Some? { TtsVoiceFixed(q.ttsVoice); }
    }
  }

  // ---------------------------------------------------------------------
  // Room metadata.
  // ---------------------------------------------------------------------

  /** The metadata text the portal stores on the room: empty when no setting is present. */
  function EncodeMetadata(v: VoiceQuery): (md: string)
    ensures md == "" <==> NoSettings(v)
  {
    ToDictEmpty(v);
    if ToDict(v) == map[] then ""
    else Serialize(JObj(map["owui_voice" := JObj(ToDict(v))]))
  }

  /** Metadata determines the settings: different settings never share metadata. */
  lemma MetadataInjective(a: VoiceQuery, b: VoiceQuery)
    requires EncodeMetadata(a) == EncodeMetadata(b)
    ensures a == b
  {
    ToDictEmpty(a);
    ToDictEmpty(b);
    if !NoSettings(a) {
      var ja := JObj(map["owui_voice" := JObj(ToDict(a))]);
      var jb := JObj(map["owui_voice" := JObj(ToDict(b))]);
      ToDictValid(a);
      ToDictValid(b);
      LoadsSerialize(ja);
      LoadsSerialize(jb);
      assert ja.fields["owui_voice"] == jb.fields["owui_voice"];
      ToDictInjective(a, b);
    }
  }
}
