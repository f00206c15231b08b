/**
 * The agent's control plane: the browser sends JSON commands over a LiveKit
 * data topic, and the agent decides from the topic, the sender's identity and
 * the payload whether to ignore the packet, log it, report an error, or set
 * or clear the pinned context. The decision is a pure classification; the
 * handler then runs it against the agent's chat context.
 */
module ControlGate {
  import opened Wrappers
  import opened PyText
  import opened JsonValue
  import opened JsonReader
  import opened JsonRoundTrip
  import opened PyJson
  import opened AgentSettings
  import opened ContextLedger

  /** The `type` every control payload carries. */
  const ControlType := "owui.voice.control"

  /** Identities the browser joins under start with this prefix. */
  const UserIdentityPrefix := "owui:"

  /** The outcome of one data packet. */
  datatype Action =
    | Ignore                     // nothing happens
    | WarnWrongTopic             // a control payload on another topic: logged, then ignored
    | DropSender                 // a sender that is not a portal user: logged, then ignored
    | InvalidJson                // `context_error` without a request id
    | SetContext(text: string, mode: string, requestId: Option<string>)
    | ClearContext(requestId: Option<string>)
    | UnknownOp(message: string, requestId: Option<string>)

  /** `str(payload.get(key) or default)` for a decoded object. */
  function FieldText(fields: map<string, Json>, key: string, default: string, containerStr: Json -> string): string {
    PyStr(OrElse(PyGet(fields, key), JStr(default)), containerStr)
  }

  /** The command's op: trimmed and lower-cased. */
  function Op(fields: map<string, Json>, containerStr: Json -> string): string {
    Lower(Strip(FieldText(fields, "op", "", containerStr)))
  }

  /** The request id: trimmed, and absent when blank. */
  function RequestId(fields: map<string, Json>, containerStr: Json -> string): (r: Option<string>)
    ensures r.Some? ==> r.value != "" && Strip(r.value) == r.value
    ensures r.None? <==> Strip(FieldText(fields, "request_id", "", containerStr)) == ""
    ensures r.Some? ==> r.value == Strip(FieldText(fields, "request_id", "", containerStr))
  {
    var rid := Strip(FieldText(fields, "request_id", "", containerStr));
    StripIdempotent(FieldText(fields, "request_id", "", containerStr));
    if rid == "" then None else Some(rid)
  }

  /** The dispatch on the op of an admitted control object. */
  function Command(fields: map<string, Json>, containerStr: Json -> string): (r: Action) {
    var op := Op(fields, containerStr);
    var rid := RequestId(fields, containerStr);
    if op == "context_set" then
      SetContext(FieldText(fields, "text", "", containerStr),
                 Lower(Strip(FieldText(fields, "mode", "replace", containerStr))), rid)
    else if op == "context_clear" then ClearContext(rid)
    else UnknownOp("Unknown control op: " + (if op == "" then "(empty)" else op), rid)
  }

  /**
   * `on_data_received`: `data` is the packet decoded as text. The gates run
   * in order: the control topic must be configured and the payload
   * non-blank; the topic must match; a non-empty identity must be a portal
   * user; the payload must be JSON; it must be an object of the control type.
   */
  function Classify(controlTopic: string, topic: string, identity: string, data: string,
                    containerStr: Json -> string): Action
  {
    var raw := Strip(data);
    if controlTopic == "" || raw == "" then Ignore
    else if topic != controlTopic then
      (if Contains(raw, ControlType) then WarnWrongTopic else Ignore)
    else if identity != "" && !StartsWith(identity, UserIdentityPrefix) then DropSender
    else
      match Loads(raw)
      case None => InvalidJson
      case Some(payload) =>
        if !payload.JObj? || PyGet(payload.fields, "type") != JStr(ControlType) then Ignore
        else Command(payload.fields, containerStr)
  }

  /** Lower-casing only touches letters, so a trimmed text stays trimmed. */
  lemma LowerKeepsTrim(s: string)
    requires Strip(s) == s
    ensures Strip(Lower(s)) == Lower(s)
  {
    var r := Lower(s);
    if s != [] {
      assert !IsSpace(s[0]) && !IsSpace(s[|s| - 1]);
      assert r[0] == LowerChar(s[0]) && r[|r| - 1] == LowerChar(s[|s| - 1]);
    }
    StripNoEdgeSpace(r);
  }

  /**
   * What a command carries is normalised: `context_set` and `context_clear`
   * are recognised whatever their case and surrounding space, a set's mode
   * is trimmed and lower-cased, and an unknown op is named in the error.
   */
  lemma CommandNormalised(fields: map<string, Json>, containerStr: Json -> string)
    ensures var r := Command(fields, containerStr);
      && (r.SetContext? <==> Op(fields, containerStr) == "context_set")
      && (r.ClearContext? <==> Op(fields, containerStr) == "context_clear")
      && (r.SetContext? ==> Strip(r.mode) == r.mode)
      && (r.SetContext? ==> r.text == FieldText(fields, "text", "", containerStr)
                            && r.mode == Lower(Strip(FieldText(fields, "mode", "replace", containerStr))))
      && (r.UnknownOp? ==> StartsWith(r.message, "Unknown control op: ") && |r.message| > |"Unknown control op: "|)
      && (r.UnknownOp? ==>
            r.message == "Unknown control op: " + (if Op(fields, containerStr) == "" then "(empty)" else Op(fields, containerStr)))
      && r.requestId == RequestId(fields, containerStr)
  {
    var r := Command(fields, containerStr);
    if r.SetContext? {
      var m := FieldText(fields, "mode", "replace", containerStr);
      StripIdempotent(m);
      LowerKeepsTrim(Strip(m));
    }
  }

  /** Nothing happens without a configured control topic or with a blank payload. */
  lemma BlankIgnored(controlTopic: string, topic: string, identity: string, data: string,
                     containerStr: Json -> string)
    requires controlTopic == "" || forall k :: 0 <= k < |data| ==> IsSpace(data[k])
    ensures Classify(controlTopic, topic, identity, data, containerStr) == Ignore
  {
    StripEmptyIff(data);
  }

  /** A packet on another topic is never acted on; it is logged exactly when it mentions the control type. */
  lemma WrongTopicNotActed(controlTopic: string, topic: string, identity: string, data: string,
                           containerStr: Json -> string)
    requires controlTopic != "" && Strip(data) != "" && topic != controlTopic
    ensures var r := Classify(controlTopic, topic, identity, data, containerStr);
      (r == WarnWrongTopic <==> Contains(Strip(data), ControlType)) && (r == Ignore || r == WarnWrongTopic)
  {
  }

  /** An empty identity passes the sender check; any other must start with `owui:`. */
  lemma SenderGate(controlTopic: string, topic: string, identity: string, data: string,
                   containerStr: Json -> string)
    requires controlTopic != "" && Strip(data) != "" && topic == controlTopic
    ensures Classify(controlTopic, topic, identity, data, containerStr) == DropSender
      <==> identity != "" && !StartsWith(identity, UserIdentityPrefix)
  {
    match Loads(Strip(data)) {
      case None =>
      case Some(payload) =>
        if payload.JObj? && PyGet(payload.fields, "type") == JStr(ControlType) {
          CommandNormalised(payload.fields, containerStr);
        }
    }
  }

  /**
   * A command (set, clear or unknown op) is only ever the answer to a
   * non-blank JSON object of the control type, on the control topic, from
   * an admitted sender.
   */
  lemma CommandsAreAdmitted(controlTopic: string, topic: string, identity: string, data: string,
                            containerStr: Json -> string)
    requires var r := Classify(controlTopic, topic, identity, data, containerStr);
      r.SetContext? || r.ClearContext? || r.UnknownOp?
    ensures controlTopic != "" && topic == controlTopic
    ensures identity == "" || StartsWith(identity, UserIdentityPrefix)
    ensures Loads(Strip(data)).Some? && Loads(Strip(data)).value.JObj?
    ensures PyGet(Loads(Strip(data)).value.fields, "type") == JStr(ControlType)
  {
  }

  /** A payload that is not JSON is reported, and only once every earlier gate has passed. */
  lemma InvalidJsonGate(controlTopic: string, topic: string, identity: string, data: string,
                        containerStr: Json -> string)
    ensures Classify(controlTopic, topic, identity, data, containerStr) == InvalidJson
      <==> controlTopic != "" && Strip(data) != "" && topic == controlTopic
           && (identity == "" || StartsWith(identity, UserIdentityPrefix))
           && Loads(Strip(data)).None?
  {
    match Loads(Strip(data)) {
      case None =>
      case Some(payload) =>
        if payload.JObj? && PyGet(payload.fields, "type") == JStr(ControlType) {
          CommandNormalised(payload.fields, containerStr);
        }
    }
  }

  /**
   * The browser's side of the protocol: a control object it serialises and
   * sends from its `owui:` identity on the control topic is dispatched on its
   * own fields.
   */
  lemma SentCommandDispatched(topic: string, user: string, fields: map<string, Json>,
                              containerStr: Json -> string)
    requires topic != "" && Valid(JObj(fields))
    requires PyGet(fields, "type") == JStr(ControlType)
    ensures Classify(topic, topic, UserIdentityPrefix + user, Serialize(JObj(fields)), containerStr)
      == Command(fields, containerStr)
  {
    var data := Serialize(JObj(fields));
    assert Strip(data) == data && data != "" by {
      SerializedObjectTrimmed(fields);
      SerializeStart(JObj(fields));
    }
    assert Loads(data) == Some(JObj(fields)) by {
      LoadsSerialize(JObj(fields));
    }
    assert StartsWith(UserIdentityPrefix + user, UserIdentityPrefix) by {
      assert (UserIdentityPrefix + user)[..|UserIdentityPrefix|] == UserIdentityPrefix;
    }
  }

  /**
   * The handler: classify the packet, then run the command against the
   * agent's context or publish the error. Logged and ignored packets change
   * nothing.
   */
  method OnDataReceived(agent: AgentContext, controlTopic: string, topic: string, identity: string,
                        data: string, containerStr: Json -> string, freshId: string)
    modifies agent
    ensures match Classify(controlTopic, topic, identity, data, containerStr)
      case SetContext(text, mode, rid) =>
        var (ctx, event) := ApplyOutcome(old(agent.items), text, mode, rid, agent.maxChars, agent.faults, freshId);
        agent.items == ctx && agent.events == old(agent.events) + [event]
      case ClearContext(rid) =>
        var (ctx, event) := ClearOutcome(old(agent.items), rid, agent.faults);
        agent.items == ctx && agent.events == old(agent.events) + [event]
      case InvalidJson =>
        agent.items == old(agent.items)
        && agent.events == old(agent.events) + [ContextError("Invalid JSON control payload", None, None, None)]
      case UnknownOp(message, rid) =>
        agent.items == old(agent.items)
        && agent.events == old(agent.events) + [ContextError(message, None, None, rid)]
      case _ =>
        agent.items == old(agent.items) && agent.events == old(agent.events)
  {
    var action := Classify(controlTopic, topic, identity, data, containerStr);
    match action {
      case SetContext(text, mode, rid) =>
        agent.ApplyContext(text, mode, rid, freshId);
      case ClearContext(rid) =>
        agent.ClearContext(rid);
      case InvalidJson =>
        agent.events := agent.events + [ContextError("Invalid JSON control payload", None, None, None)];
      case UnknownOp(message, rid) =>
        agent.events := agent.events + [ContextError(message, None, None, rid)];
      case _ =>
    }
  }

  // ---------------------------------------------------------------------
  // Telemetry clipping.
  // ---------------------------------------------------------------------

  /** The length telemetry clips to. */
  const ClipLength: nat := 800

  /** `clip`: long tool arguments and outputs are cut to `maxLen` characters and marked with an ellipsis. */
  function Clip(value: string, maxLen: nat): (r: string)
    ensures |r| <= maxLen + 1
    ensures |value| <= maxLen ==> r == value
    ensures |value| > maxLen ==> |r| == maxLen + 1 && r[..maxLen] == value[..maxLen] && r[maxLen] == '…'
  {
    if |value| <= maxLen then value else value[..maxLen] + "…"
  }

  /** Clipping a clipped value changes nothing. */
  lemma ClipIdempotent(value: string, maxLen: nat)
    ensures Clip(Clip(value, maxLen), maxLen) == Clip(value, maxLen)
  {
    if |value| > maxLen {
      var r := Clip(value, maxLen);
      assert r[..maxLen] == value[..maxLen];
    }
  }
}
