/**
 * The reference context a user pins into a live voice session. The agent's
 * chat context is a sequence of items; the ones it added itself carry a tag.
 * Setting context either replaces the tagged items or appends to the last
 * one, within a character budget; clearing removes every tagged item. Each
 * request publishes exactly one event describing what happened.
 */
module ContextLedger {
  import opened Wrappers
  import opened PyText

  /** One part of a message's content: text, or something else (an image, audio). */
  datatype Part = TextPart(text: string) | OtherPart

  /** A message's content: a list of parts, a bare string, or neither. */
  datatype Content = Parts(parts: seq<Part>) | Plain(text: string) | NoContent

  /** An item of the chat context; `tagged` is the `owui_livekit_context` marker. */
  datatype ChatItem = ChatItem(id: string, isMessage: bool, role: string, tagged: bool, content: Content)

  /** The events the agent publishes about context requests. */
  datatype Event =
    | ContextError(message: string, limit: Option<int>, used: Option<int>, requestId: Option<string>)
    | ContextCleared(clearedMode: Option<string>, requestId: Option<string>)
    | ContextSet(mode: string, chars: nat, id: string, appended: bool, truncated: bool,
                 maxChars: int, totalChars: nat, requestId: Option<string>)

  /** Session calls that raise: copying the chat context, adding a message, installing the updated context. */
  datatype Fault = CopyFails | AddFails | UpdateFails

  const ContextPrefix := "Reference context (provided by user):\n\n"

  predicate IsContextItem(item: ChatItem) {
    item.isMessage && item.tagged
  }

  // ---------------------------------------------------------------------
  // Views of the item sequence.
  // ---------------------------------------------------------------------

  /** The characters of the text parts. */
  function PartChars(parts: seq<Part>): nat {
    if parts == [] then 0
    else PartChars(parts[..|parts| - 1]) + (if parts[|parts| - 1].TextPart? then |parts[|parts| - 1].text| else 0)
  }

  /** The characters an item contributes to the context total: only tagged items count. */
  function ItemChars(item: ChatItem): nat {
    if !IsContextItem(item) then 0
    else
      match item.content
      case Parts(parts) => PartChars(parts)
      case Plain(text) => |text|
      case NoContent => 0
  }

  /** `context_total_chars`: the characters of all tagged items. */
  function TotalChars(items: seq<ChatItem>): nat {
    if items == [] then 0
    else TotalChars(items[..|items| - 1]) + ItemChars(items[|items| - 1])
  }

  /** The untagged items, in order. */
  function Untagged(items: seq<ChatItem>): seq<ChatItem> {
    if items == [] then []
    else
      var last := items[|items| - 1];
      Untagged(items[..|items| - 1]) + (if IsContextItem(last) then [] else [last])
  }

  /** The number of tagged items. */
  function CountContext(items: seq<ChatItem>): nat {
    if items == [] then 0
    else CountContext(items[..|items| - 1]) + (if IsContextItem(items[|items| - 1]) then 1 else 0)
  }

  /** `find_last_context_message`: the position of the last tagged item. */
  function LastContextIndex(items: seq<ChatItem>): (r: Option<nat>)
    ensures r.Some? ==> (r.value < |items| && IsContextItem(items[r.value])
      && forall k :: r.value < k < |items| ==> !IsContextItem(items[k]))
    ensures r.None? ==> forall k :: 0 <= k < |items| ==> !IsContextItem(items[k])
  {
    if items == [] then None
    else if IsContextItem(items[|items| - 1]) then Some(|items| - 1)
    else LastContextIndex(items[..|items| - 1])
  }

  /** At most one tagged item, and every tagged item holds a list of parts. */
  predicate WellFormed(items: seq<ChatItem>) {
    CountContext(items) <= 1
    && forall k :: 0 <= k < |items| && IsContextItem(items[k]) ==> items[k].content.Parts?
  }

  // ---------------------------------------------------------------------
  // What a request does.
  // ---------------------------------------------------------------------

  /** An unknown mode is treated as `replace`. */
  function NormalMode(mode: string): (m: string)
    ensures m == "replace" || m == "append"
    ensures mode == "replace" || mode == "append" ==> m == mode
    ensures mode != "replace" && mode != "append" ==> m == "replace"
  {
    if mode == "replace" || mode == "append" then mode else "replace"
  }

  /** The working copy once a replace has removed the tagged items. */
  function Base(items: seq<ChatItem>, mode: string): seq<ChatItem> {
    if mode == "replace" then Untagged(items) else items
  }

  /** No room is left: the budget is on and the tagged characters already reach it. */
  predicate Full(maxChars: int, base: seq<ChatItem>) {
    maxChars > 0 && maxChars - TotalChars(base) <= 0
  }

  /** The text is longer than the room left. */
  predicate Truncates(maxChars: int, base: seq<ChatItem>, text: string) {
    maxChars > 0 && |text| > maxChars - TotalChars(base)
  }

  /** The text cut to the room left. */
  function Cut(maxChars: int, base: seq<ChatItem>, text: string): (r: string)
    requires !Full(maxChars, base)
    ensures Truncates(maxChars, base, text) ==> |r| == maxChars - TotalChars(base)
    ensures !Truncates(maxChars, base, text) ==> r == text
    ensures r == text[..|r|]
  {
    if Truncates(maxChars, base, text) then text[..maxChars - TotalChars(base)] else text
  }

  /** The new tagged system message `add_message` creates. */
  function NewContextItem(id: string, text: string): ChatItem {
    ChatItem(id, true, "system", true, Parts([TextPart(ContextPrefix + text)]))
  }

  /** The last tagged item, if it holds a list of parts: the one an append extends. */
  function AppendTarget(base: seq<ChatItem>, mode: string): (r: Option<nat>)
    ensures r.Some? ==> r.value < |base| && IsContextItem(base[r.value]) && base[r.value].content.Parts?
    ensures r.Some? <==>
      mode == "append" && LastContextIndex(base).Some? && base[LastContextIndex(base).value].content.Parts?
    ensures r.Some? ==> r == LastContextIndex(base)
  {
    var last := LastContextIndex(base);
    if mode == "append" && last.Some? && base[last.value].content.Parts? then last else None
  }

  function AppendPart(item: ChatItem, text: string): ChatItem
    requires item.content.Parts?
  {
    item.(content := Parts(item.content.parts + [TextPart(text)]))
  }

  /** The context after placing the text: appended to the target, or in a new tagged message. */
  function Placed(base: seq<ChatItem>, mode: string, text: string, freshId: string): seq<ChatItem> {
    var target := AppendTarget(base, mode);
    if target.Some? then base[target.value := AppendPart(base[target.value], text)]
    else base + [NewContextItem(freshId, text)]
  }

  /**
   * `apply_context`: the chat context afterwards and the one event
   * published. Every failure leaves the context as it was, except that a
   * failed update after an empty text still reports `context_cleared`.
   */
  function ApplyOutcome(items: seq<ChatItem>, text: string, mode: string, requestId: Option<string>,
                        maxChars: int, faults: set<Fault>, freshId: string): (seq<ChatItem>, Event)
  {
    var t := Strip(text);
    var m := NormalMode(mode);
    if CopyFails in faults then (items, ContextError("Failed to access chat context", None, None, requestId))
    else
      var base := Base(items, m);
      if t == "" then
        (if UpdateFails in faults then items else base, ContextCleared(Some(m), requestId))
      else if Full(maxChars, base) then
        (items, ContextError("Context is full (max chars reached)", Some(maxChars), Some(TotalChars(base)), requestId))
      else
        var cut := Cut(maxChars, base, t);
        var target := AppendTarget(base, m);
        if target.None? && AddFails in faults then
          (items, ContextError("Failed to add context", None, None, requestId))
        else if UpdateFails in faults then
          (items, ContextError("Failed to apply context to session", None, None, requestId))
        else
          var ctx := Placed(base, m, cut, freshId);
          (ctx, ContextSet(m, |cut|, if target.Some? then base[target.value].id else freshId,
                           target.Some?, Truncates(maxChars, base, t), maxChars, TotalChars(ctx), requestId))
  }

  /** `clear_context`: the tagged items go unless a session call raises; `context_cleared` is published regardless. */
  function ClearOutcome(items: seq<ChatItem>, requestId: Option<string>, faults: set<Fault>): (r: (seq<ChatItem>, Event))
    ensures r.1 == ContextCleared(None, requestId)
  {
    (if CopyFails in faults || UpdateFails in faults then items else Untagged(items), ContextCleared(None, requestId))
  }

  // ---------------------------------------------------------------------
  // Facts about the views.
  // ---------------------------------------------------------------------

  /** A sequence without tagged items is its own untagged part and has no tagged characters. */
  lemma {:induction false} NoContextFixed(items: seq<ChatItem>)
    requires forall k :: 0 <= k < |items| ==> !IsContextItem(items[k])
    ensures Untagged(items) == items && CountContext(items) == 0 && TotalChars(items) == 0
  {
    if items != [] {
      var init := items[..|items| - 1];
      NoContextFixed(init);
      assert items == init + [items[|items| - 1]];
    }
  }

  /** No tagged item is counted exactly when there is none. */
  lemma {:induction false} CountZero(items: seq<ChatItem>)
    ensures CountContext(items) == 0 <==> forall k :: 0 <= k < |items| ==> !IsContextItem(items[k])
  {
    if items != [] {
      var init := items[..|items| - 1];
      CountZero(init);
      assert forall k :: 0 <= k < |init| ==> init[k] == items[k];
    }
  }

  /** The untagged items are exactly the items without the tag. */
  lemma {:induction false} UntaggedMembers(items: seq<ChatItem>)
    ensures forall item :: item in Untagged(items) <==> item in items && !IsContextItem(item)
  {
    if items != [] {
      var init := items[..|items| - 1];
      UntaggedMembers(init);
      assert items == init + [items[|items| - 1]];
    }
  }

  /** Dropping the tagged items twice is dropping them once. */
  lemma UntaggedIdempotent(items: seq<ChatItem>)
    ensures Untagged(Untagged(items)) == Untagged(items)
    ensures CountContext(Untagged(items)) == 0 && TotalChars(Untagged(items)) == 0
  {
    var r := Untagged(items);
    UntaggedMembers(items);
    forall k | 0 <= k < |r| ensures !IsContextItem(r[k]) {
      assert r[k] in r;
    }
    NoContextFixed(r);
  }

  lemma AppendLast(items: seq<ChatItem>, x: ChatItem)
    ensures Untagged(items + [x]) == Untagged(items) + (if IsContextItem(x) then [] else [x])
    ensures CountContext(items + [x]) == CountContext(items) + (if IsContextItem(x) then 1 else 0)
    ensures TotalChars(items + [x]) == TotalChars(items) + ItemChars(x)
  {
    assert (items + [x])[..|items|] == items;
  }

  /** Replacing one tagged item by another keeps the untagged items. */
  lemma {:induction false} UntaggedUpdate(items: seq<ChatItem>, i: nat, x: ChatItem)
    requires i < |items| && IsContextItem(items[i]) && IsContextItem(x)
    ensures Untagged(items[i := x]) == Untagged(items)
  {
    var n := |items| - 1;
    var r := items[i := x];
    if i == n {
      assert r[..n] == items[..n];
    } else {
      UntaggedUpdate(items[..n], i, x);
      assert r[..n] == items[..n][i := x];
      assert r[n] == items[n];
    }
  }

  /** Replacing one tagged item by another keeps the count of tagged items. */
  lemma {:induction false} CountUpdate(items: seq<ChatItem>, i: nat, x: ChatItem)
    requires i < |items| && IsContextItem(items[i]) && IsContextItem(x)
    ensures CountContext(items[i := x]) == CountContext(items)
  {
    var n := |items| - 1;
    var r := items[i := x];
    if i == n {
      assert r[..n] == items[..n];
    } else {
      CountUpdate(items[..n], i, x);
      assert r[..n] == items[..n][i := x];
      assert r[n] == items[n];
    }
  }

  /** Replacing one item shifts the total by the difference of their characters. */
  lemma {:induction false} TotalUpdate(items: seq<ChatItem>, i: nat, x: ChatItem)
    requires i < |items|
    ensures TotalChars(items[i := x]) == TotalChars(items) - ItemChars(items[i]) + ItemChars(x)
  {
    var n := |items| - 1;
    var r := items[i := x];
    if i == n {
      assert r[..n] == items[..n];
    } else {
      TotalUpdate(items[..n], i, x);
      assert r[..n] == items[..n][i := x];
      assert r[n] == items[n];
    }
  }

  /** A new context message holds the prefix and the text. */
  lemma NewItemChars(id: string, text: string)
    ensures ItemChars(NewContextItem(id, text)) == |ContextPrefix| + |text|
  {
    var ps := [TextPart(ContextPrefix + text)];
    assert ps[..0] == [];
    assert PartChars(ps) == PartChars(ps[..0]) + |ContextPrefix + text|;
  }

  /** A part appended to a tagged item adds its characters. */
  lemma AppendPartChars(item: ChatItem, text: string)
    requires IsContextItem(item) && item.content.Parts?
    ensures ItemChars(AppendPart(item, text)) == ItemChars(item) + |text|
  {
    var ps := item.content.parts;
    assert (ps + [TextPart(text)])[..|ps|] == ps;
  }

  // ---------------------------------------------------------------------
  // What the requests promise.
  // ---------------------------------------------------------------------

  /** Setting context never touches an untagged item: they stay, in order. */
  lemma ApplyKeepsUntagged(items: seq<ChatItem>, text: string, mode: string, requestId: Option<string>,
                           maxChars: int, faults: set<Fault>, freshId: string)
    ensures Untagged(ApplyOutcome(items, text, mode, requestId, maxChars, faults, freshId).0) == Untagged(items)
  {
    var m := NormalMode(mode);
    var base := Base(items, m);
    var r := ApplyOutcome(items, text, mode, requestId, maxChars, faults, freshId).0;
    ApplyResults(items, text, mode, requestId, maxChars, faults, freshId);
    if m == "replace" { UntaggedIdempotent(items); }
    if r != items && r != base {
      PlacedUntagged(base, m, Cut(maxChars, base, Strip(text)), freshId);
    }
  }

  /**
   * Which event a request publishes: an error leaves the context exactly as
   * it was; blank text clears; and the text is set exactly when the copy
   * succeeds, the text is not blank, the budget is not used up, adding a
   * message does not fail where a new one is needed, and the update
   * succeeds, in which case the context is the working copy with the text
   * placed.
   */
  lemma ApplyEvents(items: seq<ChatItem>, text: string, mode: string, requestId: Option<string>,
                    maxChars: int, faults: set<Fault>, freshId: string)
    ensures var (ctx, event) := ApplyOutcome(items, text, mode, requestId, maxChars, faults, freshId);
      var m := NormalMode(mode);
      var base := Base(items, m);
      && (event.ContextError? ==> ctx == items)
      && (event.ContextCleared? <==> CopyFails !in faults && Strip(text) == "")
      && (event.ContextSet? <==>
            && CopyFails !in faults && Strip(text) != "" && !Full(maxChars, base)
            && !(AppendTarget(base, m).None? && AddFails in faults)
            && UpdateFails !in faults)
      && (event.ContextSet? ==> ctx == Placed(base, m, Cut(maxChars, base, Strip(text)), freshId))
      && (event.ContextSet? ==> event.appended == AppendTarget(base, m).Some? && event.mode == m)
  {
  }

  /** The context after a request is the old one, the working copy, or the working copy with the text placed. */
  lemma ApplyResults(items: seq<ChatItem>, text: string, mode: string, requestId: Option<string>,
                     maxChars: int, faults: set<Fault>, freshId: string)
    ensures var r := ApplyOutcome(items, text, mode, requestId, maxChars, faults, freshId).0;
      var base := Base(items, NormalMode(mode));
      || r == items || r == base
      || (!Full(maxChars, base) && r == Placed(base, NormalMode(mode), Cut(maxChars, base, Strip(text)), freshId))
  {
    var m := NormalMode(mode);
    var base := Base(items, m);
    var t := Strip(text);
    var r := ApplyOutcome(items, text, mode, requestId, maxChars, faults, freshId).0;
    if CopyFails in faults || t == "" || Full(maxChars, base) {
      assert r == items || r == base;
    } else if (AppendTarget(base, m).None? && AddFails in faults) || UpdateFails in faults {
      assert r == items;
    } else {
      assert r == Placed(base, m, Cut(maxChars, base, t), freshId);
    }
  }

  /** Placing a text changes no untagged item. */
  lemma PlacedUntagged(base: seq<ChatItem>, mode: string, text: string, freshId: string)
    ensures Untagged(Placed(base, mode, text, freshId)) == Untagged(base)
  {
    var target := AppendTarget(base, mode);
    if target.Some? {
      UntaggedUpdate(base, target.value, AppendPart(base[target.value], text));
    } else {
      AppendLast(base, NewContextItem(freshId, text));
    }
  }

  lemma UntaggedWellFormed(items: seq<ChatItem>)
    ensures WellFormed(Untagged(items))
  {
    UntaggedIdempotent(items);
    CountZero(Untagged(items));
  }

  lemma UpdateWellFormed(items: seq<ChatItem>, i: nat, x: ChatItem)
    requires WellFormed(items) && i < |items| && IsContextItem(items[i])
    requires IsContextItem(x) && x.content.Parts?
    ensures WellFormed(items[i := x])
  {
    CountUpdate(items, i, x);
  }

  lemma AddWellFormed(items: seq<ChatItem>, x: ChatItem)
    requires WellFormed(items) && LastContextIndex(items).None? && x.content.Parts?
    ensures WellFormed(items + [x])
  {
    CountZero(items);
    AppendLast(items, x);
    var r := items + [x];
    assert r[|items|] == x;
  }

  /** Setting context keeps at most one tagged item, and every tagged item a list of parts. */
  lemma ApplyWellFormed(items: seq<ChatItem>, text: string, mode: string, requestId: Option<string>,
                        maxChars: int, faults: set<Fault>, freshId: string)
    requires WellFormed(items)
    ensures WellFormed(ApplyOutcome(items, text, mode, requestId, maxChars, faults, freshId).0)
  {
    var m := NormalMode(mode);
    var base := Base(items, m);
    var r := ApplyOutcome(items, text, mode, requestId, maxChars, faults, freshId).0;
    ApplyResults(items, text, mode, requestId, maxChars, faults, freshId);
    if m == "replace" {
      UntaggedWellFormed(items);
      UntaggedIdempotent(items);
      CountZero(base);
    }
    if r != items && r != base {
      PlacedWellFormed(base, m, Cut(maxChars, base, Strip(text)), freshId);
    }
  }

  /** Placing a text in a well-formed working copy keeps it well-formed. */
  lemma PlacedWellFormed(base: seq<ChatItem>, mode: string, text: string, freshId: string)
    requires WellFormed(base) && (mode != "append" ==> LastContextIndex(base).None?)
    ensures WellFormed(Placed(base, mode, text, freshId))
  {
    var target := AppendTarget(base, mode);
    if target.Some? {
      UpdateWellFormed(base, target.value, AppendPart(base[target.value], text));
    } else {
      AddWellFormed(base, NewContextItem(freshId, text));
    }
  }

  /**
   * Blank text publishes `context_cleared` and adds nothing: a replace
   * drops the tagged items (unless the update fails), an append leaves the
   * context exactly as it was.
   */
  lemma BlankTextClears(items: seq<ChatItem>, text: string, mode: string, requestId: Option<string>,
                        maxChars: int, faults: set<Fault>, freshId: string)
    requires CopyFails !in faults
    requires forall k :: 0 <= k < |text| ==> IsSpace(text[k])
    ensures var (ctx, event) := ApplyOutcome(items, text, mode, requestId, maxChars, faults, freshId);
      && event == ContextCleared(Some(NormalMode(mode)), requestId)
      && (NormalMode(mode) == "append" || UpdateFails in faults ==> ctx == items)
      && (NormalMode(mode) == "replace" && UpdateFails !in faults ==> ctx == Untagged(items))
  {
    StripEmptyIff(text);
  }

  /**
   * After a successful set under a budget, the reported total is the
   * context's and exceeds the budget by at most the prefix of a new message;
   * an append stays within the budget. The text is truncated exactly when
   * it is longer than the room that was left.
   */
  lemma BudgetBound(items: seq<ChatItem>, text: string, mode: string, requestId: Option<string>,
                    maxChars: int, faults: set<Fault>, freshId: string)
    requires maxChars > 0
    requires ApplyOutcome(items, text, mode, requestId, maxChars, faults, freshId).1.ContextSet?
    ensures var (ctx, event) := ApplyOutcome(items, text, mode, requestId, maxChars, faults, freshId);
      var room := maxChars - TotalChars(Base(items, NormalMode(mode)));
      && event.totalChars == TotalChars(ctx) <= maxChars + |ContextPrefix|
      && (event.appended ==> TotalChars(ctx) <= maxChars)
      && (event.truncated <==> |Strip(text)| > room)
      && event.chars == (if |Strip(text)| > room then room else |Strip(text)|)
  {
    var m := NormalMode(mode);
    var base := Base(items, m);
    PlacedChars(base, m, Cut(maxChars, base, Strip(text)), freshId);
  }

  /** Placing a text adds its characters, and a new message's prefix when nothing is appended to. */
  lemma PlacedChars(base: seq<ChatItem>, mode: string, text: string, freshId: string)
    ensures TotalChars(Placed(base, mode, text, freshId))
      == TotalChars(base) + |text| + (if AppendTarget(base, mode).Some? then 0 else |ContextPrefix|)
  {
    var target := AppendTarget(base, mode);
    if target.Some? {
      TotalUpdate(base, target.value, AppendPart(base[target.value], text));
      AppendPartChars(base[target.value], text);
    } else {
      var x := NewContextItem(freshId, text);
      AppendLast(base, x);
      NewItemChars(freshId, text);
    }
  }

  /** The bound is reached: a full-length text into an empty context ends `|ContextPrefix|` over the budget. */
  lemma BudgetOvershoot(maxChars: int, text: string, freshId: string)
    requires maxChars > 0 && |text| == maxChars && Strip(text) == text
    ensures ApplyOutcome([], text, "replace", None, maxChars, {}, freshId).1.totalChars == maxChars + |ContextPrefix|
  {
    var x := NewContextItem(freshId, text);
    AppendLast([], x);
    NewItemChars(freshId, text);
    assert [] + [x] == [x];
  }

  /** Clearing leaves no tagged item and keeps the others in order, so a second clear changes nothing. */
  lemma ClearSettles(items: seq<ChatItem>, requestId: Option<string>, faults: set<Fault>)
    ensures var ctx := ClearOutcome(items, requestId, faults).0;
      && Untagged(ctx) == Untagged(items)
      && ClearOutcome(ctx, requestId, faults).0 == ctx
      && (CopyFails !in faults && UpdateFails !in faults ==> CountContext(ctx) == 0)
  {
    UntaggedIdempotent(items);
  }

  // ---------------------------------------------------------------------
  // Loops over the context.
  // ---------------------------------------------------------------------

  /** `context_total_chars`, item by item and part by part. */
  method ContextTotalChars(items: seq<ChatItem>) returns (total: nat)
    ensures total == TotalChars(items)
  {
    total := 0;
    for i := 0 to |items|
      invariant total == TotalChars(items[..i])
    {
      assert items[..i + 1][..i] == items[..i];
      var item := items[i];
      if IsContextItem(item) {
        match item.content {
          case Parts(parts) =>
            var sum := 0;
            for j := 0 to |parts|
              invariant sum == PartChars(parts[..j])
            {
              assert parts[..j + 1][..j] == parts[..j];
              if parts[j].TextPart? {
                sum := sum + |parts[j].text|;
              }
            }
            assert parts[..|parts|] == parts;
            total := total + sum;
          case Plain(text) =>
            total := total + |text|;
          case NoContent =>
        }
      }
    }
    assert items[..|items|] == items;
  }

  /** `find_last_context_message`: scans the items from the end. */
  method FindLastContext(items: seq<ChatItem>) returns (r: Option<nat>)
    ensures r == LastContextIndex(items)
  {
    var i := |items|;
    assert items[..i] == items;
    while i > 0
      invariant 0 <= i <= |items|
      invariant LastContextIndex(items[..i]) == LastContextIndex(items)
    {
      if IsContextItem(items[i - 1]) {
        return Some(i - 1);
      }
      assert items[..i][..i - 1] == items[..i - 1];
      i := i - 1;
    }
    return None;
  }

  /** The budget check: whether the context is full, and otherwise the text cut to the room left. */
  method Budget(maxChars: int, ctx: seq<ChatItem>, text: string)
    returns (full: bool, current: nat, cut: string, truncated: bool)
    ensures full == Full(maxChars, ctx)
    ensures full ==> current == TotalChars(ctx)
    ensures !full ==> cut == Cut(maxChars, ctx, text) && truncated == Truncates(maxChars, ctx, text)
  {
    full, current, cut, truncated := false, 0, text, false;
    if maxChars > 0 {
      current := ContextTotalChars(ctx);
      var remaining := maxChars - current;
      if remaining <= 0 {
        full := true;
        return;
      }
      if |text| > remaining {
        cut := text[..remaining];
        truncated := true;
      }
    }
  }

  /** In append mode, the last tagged item if its content is a list of parts. */
  method FindAppendTarget(ctx: seq<ChatItem>, mode: string) returns (target: Option<nat>)
    ensures target == AppendTarget(ctx, mode)
  {
    target := None;
    if mode == "append" {
      var existing := FindLastContext(ctx);
      if existing.Some? && ctx[existing.value].content.Parts? {
        target := existing;
      }
    }
  }

  /** The agent's chat context and the events it has published. */
  class AgentContext {
    var items: seq<ChatItem>
    var events: seq<Event>
    const maxChars: int
    const faults: set<Fault>

    constructor (items: seq<ChatItem>, maxChars: int, faults: set<Fault>)
      ensures this.items == items && events == [] && this.maxChars == maxChars && this.faults == faults
    {
      this.items := items;
      events := [];
      this.maxChars := maxChars;
      this.faults := faults;
    }

    /** `apply_context`, step by step on a working copy that replaces the context at the end. */
    method ApplyContext(text: string, mode: string, requestId: Option<string>, freshId: string)
      modifies this
      ensures var (ctx, event) := ApplyOutcome(old(items), text, mode, requestId, maxChars, faults, freshId);
        items == ctx && events == old(events) + [event]
    {
      var t := Strip(text);
      var m := NormalMode(mode);
      if CopyFails in faults {
        events := events + [ContextError("Failed to access chat context", None, None, requestId)];
        return;
      }
      var ctx := items;
      if m == "replace" {
        ctx := Untagged(ctx);
      }
      assert ctx == Base(items, m);
      if t == "" {
        if UpdateFails !in faults {
          items := ctx;
        }
        events := events + [ContextCleared(Some(m), requestId)];
        return;
      }
      var full, current, cut, truncated := Budget(maxChars, ctx, t);
      if full {
        events := events + [ContextError("Context is full (max chars reached)", Some(maxChars), Some(current), requestId)];
        return;
      }
      var target := FindAppendTarget(ctx, m);
      var id := freshId;
      if target.Some? {
        id := ctx[target.value].id;
        ctx := ctx[target.value := AppendPart(ctx[target.value], cut)];
      } else {
        if AddFails in faults {
          events := events + [ContextError("Failed to add context", None, None, requestId)];
          return;
        }
        ctx := ctx + [NewContextItem(freshId, cut)];
      }
      assert ctx == Placed(Base(old(items), m), m, cut, freshId);
      if UpdateFails in faults {
        events := events + [ContextError("Failed to apply context to session", None, None, requestId)];
        return;
      }
      items := ctx;
      var total := ContextTotalChars(ctx);
      events := events + [ContextSet(m, |cut|, id, target.Some?, truncated, maxChars, total, requestId)];
    }

    /** `clear_context`. */
    method ClearContext(requestId: Option<string>)
      modifies this
      ensures var (ctx, event) := ClearOutcome(old(items), requestId, faults);
        items == ctx && events == old(events) + [event]
    {
      if CopyFails !in faults && UpdateFails !in faults {
        items := Untagged(items);
      }
      events := events + [ContextCleared(None, requestId)];
    }
  }
}
