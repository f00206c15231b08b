/**
 * `apply_local_patches.py`: idempotent text patches applied to the installed
 * Open WebUI package. Each patcher reads one file, decides between
 * "already", "unpatched (<why>)" and a patched text, and writes the patched
 * text back unless it is a dry run. The module also models the streaming
 * substring search used to pick the JavaScript chunks to patch.
 *
 * The regular expressions of the source (the `requestAnimationFrame`
 * rewrite, the pane binding search, the voice-listing block and the
 * `import json` anchor) are parameters here, and so are the long literal
 * anchors and replacement bodies.
 */
module LocalPatches {
  import opened Wrappers
  import opened PyText

  // ---------------------------------------------------------------------
  // `_contains_bytes`: substring search over a file read in chunks.
  // ---------------------------------------------------------------------

  /** Python's `s[-k:]` for `k > 0`: the last `k` items, or all of `s` when it is shorter. */
  function Suffix<T>(s: seq<T>, k: nat): (r: seq<T>)
    ensures |r| == if k < |s| then k else |s|
    ensures r == s[|s| - |r|..]
  {
    if k < |s| then s[|s| - k..] else s
  }

  /** An occurrence in a prefix is an occurrence in the whole. */
  lemma ContainsInPrefix<T>(s: seq<T>, j: nat, n: seq<T>)
    requires j <= |s| && Contains(s[..j], n)
    ensures Contains(s, n)
  {
    var i :| OccursAt(s[..j], n, i);
    assert s[i..i + |n|] == s[..j][i..i + |n|];
    assert OccursAt(s, n, i);
  }

  /**
   * The overlap window: once `seen` is searched, an occurrence of `n` in
   * `seen + chunk` is either in `seen` or in the last `|n| - 1` items of
   * `seen` followed by `chunk`.
   */
  lemma ContainsWindow<T>(seen: seq<T>, chunk: seq<T>, n: seq<T>, k: nat)
    requires |n| > 0 && k == |n| - 1
    ensures Contains(seen + chunk, n) <==> Contains(seen, n) || Contains(Suffix(seen, k) + chunk, n)
  {
    WindowSound(seen, chunk, n, k);
    WindowComplete(seen, chunk, n, k);
  }

  /** What is found in `seen` or in the window is found in `seen + chunk`. */
  lemma WindowSound<T>(seen: seq<T>, chunk: seq<T>, n: seq<T>, k: nat)
    ensures Contains(seen, n) || Contains(Suffix(seen, k) + chunk, n) ==> Contains(seen + chunk, n)
  {
    var u := seen + chunk;
    var t := Suffix(seen, k);
    var o := |seen| - |t|;
    if Contains(t + chunk, n) {
      ContainsAppend(u[..o], t + chunk, n);
      assert u[..o] + (t + chunk) == u;
    }
    if Contains(seen, n) {
      assert u[..|seen|] == seen;
      ContainsInPrefix(u, |seen|, n);
    }
  }

  /** What is found in `seen + chunk` is found in `seen` or in the window. */
  lemma WindowComplete<T>(seen: seq<T>, chunk: seq<T>, n: seq<T>, k: nat)
    requires |n| > 0 && k == |n| - 1
    ensures Contains(seen + chunk, n) ==> Contains(seen, n) || Contains(Suffix(seen, k) + chunk, n)
  {
    var u := seen + chunk;
    var t := Suffix(seen, k);
    var o := |seen| - |t|;
    if Contains(u, n) {
      var i :| OccursAt(u, n, i);
      WindowHit(u, |seen|, o, n, i);
      assert u[..|seen|] == seen;
      assert u[o..] == t + chunk;
    }
  }

  /** An occurrence in `u` ends inside `u[..m]` or starts at or after `o`, when `o` is `0` or at least `|n| - 1` before `m`. */
  lemma WindowHit<T>(u: seq<T>, m: nat, o: nat, n: seq<T>, i: int)
    requires o <= m <= |u| && (o == 0 || m - o >= |n| - 1) && OccursAt(u, n, i)
    ensures OccursAt(u[..m], n, i) || OccursAt(u[o..], n, i - o)
  {
    if i + |n| <= m {
      assert u[..m][i..i + |n|] == u[i..i + |n|];
      assert OccursAt(u[..m], n, i);
    } else {
      assert u[o..][i - o..i - o + |n|] == u[i..i + |n|];
      assert OccursAt(u[o..], n, i - o);
    }
  }

  /** The window kept after a chunk is the last `k` items of everything read so far. */
  lemma SuffixWindow<T>(seen: seq<T>, chunk: seq<T>, k: nat)
    ensures Suffix(Suffix(seen, k) + chunk, k) == Suffix(seen + chunk, k)
  {
    var u := seen + chunk;
    var d := Suffix(seen, k) + chunk;
    assert u[|u| - |d|..] == d;
  }

  /**
   * `_contains_bytes(path, needle, chunk_size=chunkSize)` over a file whose
   * bytes are `content`. Reads of `chunkSize` bytes (all the rest when it is
   * negative, nothing when it is zero) go on until a read comes back empty;
   * each read is searched together with the last `len(needle) - 1` bytes of
   * what came before. The answer is the plain `needle in content`, whatever
   * the chunk size, except that a zero chunk size reads nothing.
   */
  method ContainsBytes(content: seq<bv8>, needle: seq<bv8>, chunkSize: int) returns (found: bool)
    ensures found <==> needle == [] || (chunkSize != 0 && Contains(content, needle))
  {
    if needle == [] {
      return true;
    }
    var overlap := if |needle| - 1 > 0 then |needle| - 1 else 0;
    var tail: seq<bv8> := [];
    var pos := 0;
    while pos < |content| && chunkSize != 0
      invariant 0 <= pos <= |content|
      invariant !Contains(content[..pos], needle)
      invariant tail == Suffix(content[..pos], overlap)
      decreases |content| - pos
    {
      var next := if chunkSize < 0 || pos + chunkSize > |content| then |content| else pos + chunkSize;
      var chunk := content[pos..next];
      var data := tail + chunk;
      assert content[..pos] + chunk == content[..next];
      ContainsWindow(content[..pos], chunk, needle, overlap);
      if Contains(data, needle) {
        ContainsInPrefix(content, next, needle);
        return true;
      }
      SuffixWindow(content[..pos], chunk, overlap);
      tail := if overlap > 0 then Suffix(data, overlap) else [];
      pos := next;
    }
    assert pos == |content| ==> content[..pos] == content;
    return false;
  }

  // ---------------------------------------------------------------------
  // What every patcher returns, and the write it makes.
  // ---------------------------------------------------------------------

  /** A patcher's verdict on one file: nothing to do, cannot patch (and why), or the patched text with a detail for the report. */
  datatype Decision = Already | Unpatched(reason: string) | Patch(patched: string, detail: string)

  /** The `(applied, message)` pair a patcher returns for a verdict. */
  function Report(d: Decision, dryRun: bool): (r: (bool, string))
    ensures r.0 <==> d.Patch?
    ensures d.Already? ==> r.1 == "already"
    ensures d.Unpatched? ==> r.1 == "unpatched (" + d.reason + ")"
    ensures d.Patch? && d.detail == "" ==> r.1 == (if dryRun then "would patch" else "patched")
    ensures d.Patch? && d.detail != "" ==>
      r.1 == (if dryRun then "would patch" else "patched") + " (" + d.detail + ")"
  {
    match d
    case Already => (false, "already")
    case Unpatched(why) => (false, "unpatched (" + why + ")")
    case Patch(_, detail) =>
      (true, (if dryRun then "would patch" else "patched") + (if detail == "" then "" else " (" + detail + ")"))
  }

  /** A file a patcher reads and may rewrite. */
  class TextFile {
    var text: string

    constructor (text: string)
      ensures this.text == text
    {
      this.text := text;
    }
  }

  /** The tail every patcher shares: write the patched text unless it is a dry run, and report. */
  method Commit(file: TextFile, d: Decision, dryRun: bool) returns (applied: bool, message: string)
    modifies file
    ensures (applied, message) == Report(d, dryRun)
    ensures file.text == if d.Patch? && !dryRun then d.patched else old(file.text)
  {
    applied, message := Report(d, dryRun).0, Report(d, dryRun).1;
    if d.Patch? && !dryRun {
      file.text := d.patched;
    }
  }

  // ---------------------------------------------------------------------
  // `_patch_chat_controls_pane_resize_guard`.
  // ---------------------------------------------------------------------

  /** `{pane}().<member>`: a call on the pane accessor's result. */
  function PaneCall(pane: string, member: string): string {
    pane + "()." + member
  }

  /** `{pane}()?.<member>`: the same call guarded against a null pane. */
  function GuardedCall(pane: string, member: string): string {
    pane + "()?." + member
  }

  /** Every `resize`, then `isExpanded`, then `getSize` call on the pane becomes a guarded call. */
  function GuardPane(text: string, pane: string): string {
    var t1 := Replace(text, PaneCall(pane, "resize"), GuardedCall(pane, "resize"));
    var t2 := Replace(t1, PaneCall(pane, "isExpanded"), GuardedCall(pane, "isExpanded"));
    Replace(t2, PaneCall(pane, "getSize"), GuardedCall(pane, "getSize"))
  }

  /**
   * The pane guard's verdict on a chunk's text; `binding` is the accessor
   * name the pane-binding search found, if any. The counts in the report
   * are taken on the original text.
   */
  function PaneDecision(original: string, binding: Option<string>): Decision {
    if binding.None? then Unpatched("pane binding not found; upstream changed?")
    else
      var pane := binding.value;
      if Contains(original, GuardedCall(pane, "resize")) || Contains(original, GuardedCall(pane, "isExpanded")) then Already
      else
        var patched := GuardPane(original, pane);
        if patched == original then Unpatched("no changes applied")
        else
          Patch(patched, "pane=" + pane
                         + ", resize=" + IntToString(Count(original, PaneCall(pane, "resize")))
                         + ", isExpanded=" + IntToString(Count(original, PaneCall(pane, "isExpanded")))
                         + ", getSize=" + IntToString(Count(original, PaneCall(pane, "getSize"))))
  }

  /** Guarding one kind of call makes the text one character longer per call rewritten. */
  lemma GuardGrowth(text: string, pane: string, member: string)
    ensures |Replace(text, PaneCall(pane, member), GuardedCall(pane, member))| == |text| + Count(text, PaneCall(pane, member))
  {
    assert |GuardedCall(pane, member)| == |PaneCall(pane, member)| + 1;
    ReplaceLength(text, PaneCall(pane, member), GuardedCall(pane, member));
  }

  /** Each guarded call is one character longer, so the text grows by the number of calls rewritten. */
  lemma PaneGrowth(text: string, pane: string)
    ensures var t1 := Replace(text, PaneCall(pane, "resize"), GuardedCall(pane, "resize"));
      var t2 := Replace(t1, PaneCall(pane, "isExpanded"), GuardedCall(pane, "isExpanded"));
      |GuardPane(text, pane)| == |text| + Count(text, PaneCall(pane, "resize"))
        + Count(t1, PaneCall(pane, "isExpanded")) + Count(t2, PaneCall(pane, "getSize"))
  {
    var t1 := Replace(text, PaneCall(pane, "resize"), GuardedCall(pane, "resize"));
    var t2 := Replace(t1, PaneCall(pane, "isExpanded"), GuardedCall(pane, "isExpanded"));
    GuardGrowth(text, pane, "resize");
    GuardGrowth(t1, pane, "isExpanded");
    GuardGrowth(t2, pane, "getSize");
  }

  /**
   * Once the binding is found and no guard is there yet, the chunk is
   * patched exactly when the original has an unguarded `resize`,
   * `isExpanded` or `getSize` call on the pane; otherwise the verdict is
   * "no changes applied".
   */
  lemma PanePatchesIff(original: string, pane: string)
    requires !Contains(original, GuardedCall(pane, "resize")) && !Contains(original, GuardedCall(pane, "isExpanded"))
    ensures PaneDecision(original, Some(pane)).Patch? <==>
      Count(original, PaneCall(pane, "resize")) > 0
      || Count(original, PaneCall(pane, "isExpanded")) > 0
      || Count(original, PaneCall(pane, "getSize")) > 0
    ensures !PaneDecision(original, Some(pane)).Patch? ==> PaneDecision(original, Some(pane)) == Unpatched("no changes applied")
  {
    var t1 := Replace(original, PaneCall(pane, "resize"), GuardedCall(pane, "resize"));
    var t2 := Replace(t1, PaneCall(pane, "isExpanded"), GuardedCall(pane, "isExpanded"));
    PaneGrowth(original, pane);
    if Count(original, PaneCall(pane, "resize")) == 0 {
      ReplaceNoOccurrence(original, PaneCall(pane, "resize"), GuardedCall(pane, "resize"));
      if Count(original, PaneCall(pane, "isExpanded")) == 0 {
        ReplaceNoOccurrence(t1, PaneCall(pane, "isExpanded"), GuardedCall(pane, "isExpanded"));
        if Count(original, PaneCall(pane, "getSize")) == 0 {
          ReplaceNoOccurrence(t2, PaneCall(pane, "getSize"), GuardedCall(pane, "getSize"));
        }
      }
    }
  }

  /** Where the chunk calls `resize` on the pane, the first rewrite leaves a guarded `resize`, the mark the next run looks for. */
  lemma PaneResizeGuarded(original: string, pane: string)
    requires Count(original, PaneCall(pane, "resize")) > 0
    ensures Contains(Replace(original, PaneCall(pane, "resize"), GuardedCall(pane, "resize")), GuardedCall(pane, "resize"))
  {
    ReplaceIntroduces(original, PaneCall(pane, "resize"), GuardedCall(pane, "resize"));
  }

  /** A chunk whose only pane call is `getSize` is patched: the call becomes guarded. */
  lemma GetSizeOnlyPatched()
    ensures PaneDecision("B().getSize", Some("B")).Patch?
    ensures PaneDecision("B().getSize", Some("B")).patched == "B()?.getSize"
  {
    var first := "B().getSize";
    FirstNoGuard();
    FirstNoResize();
    FirstGuardsGetSize();
    assert GuardPane(first, "B") == "B()?.getSize";
  }

  /** `B().getSize` holds no guarded `resize`. */
  lemma FirstNoGuard()
    ensures !Contains("B().getSize", GuardedCall("B", "resize"))
  {
    var first, guard := "B().getSize", GuardedCall("B", "resize");
    assert guard == "B()?.resize";
    assert first[..11][3] != guard[3];
  }

  /** `B().getSize` holds no `resize` call to rewrite. */
  lemma FirstNoResize()
    ensures Replace("B().getSize", PaneCall("B", "resize"), GuardedCall("B", "resize")) == "B().getSize"
  {
    var first := "B().getSize";
    var call, guard := PaneCall("B", "resize"), GuardedCall("B", "resize");
    assert call == "B().resize";
    assert first[..10][4] != call[4] && first[1..][..10][0] != call[0];
    assert Replace(first[2..], call, guard) == first[2..];
    assert Replace(first[1..], call, guard) == [first[1]] + first[2..];
    assert first == [first[0]] + ([first[1]] + first[2..]);
  }

  /** Its one `getSize` call becomes guarded. */
  lemma FirstGuardsGetSize()
    ensures Replace("B().getSize", PaneCall("B", "getSize"), GuardedCall("B", "getSize")) == "B()?.getSize"
  {
    var first := "B().getSize";
    assert PaneCall("B", "getSize") == first[..11];
  }

  /**
   * The "already" guard looks only for a guarded `resize` or `isExpanded`,
   * so the next run over that chunk finds nothing to rewrite and reports
   * "no changes applied", not "already".
   */
  lemma GetSizeOnlyRerun()
    ensures PaneDecision("B()?.getSize", Some("B")) == Unpatched("no changes applied")
  {
    var second := "B()?.getSize";
    RerunNoGuard();
    RerunNoResize();
    RerunNoGetSize();
    assert GuardPane(second, "B") == second;
  }

  /** `B()?.getSize` still holds no guarded `resize`. */
  lemma RerunNoGuard()
    ensures !Contains("B()?.getSize", GuardedCall("B", "resize"))
  {
    var second, guard := "B()?.getSize", GuardedCall("B", "resize");
    assert guard == "B()?.resize";
    assert second[..11][5] != guard[5] && second[1..][..11][0] != guard[0];
  }

  /** `B()?.getSize` holds no `resize` call to rewrite. */
  lemma RerunNoResize()
    ensures Replace("B()?.getSize", PaneCall("B", "resize"), GuardedCall("B", "resize")) == "B()?.getSize"
  {
    var second := "B()?.getSize";
    var call, guard := PaneCall("B", "resize"), GuardedCall("B", "resize");
    assert call == "B().resize";
    assert second[..10][3] != call[3] && second[1..][..10][0] != call[0] && second[2..][..10][0] != call[0];
    assert Replace(second[3..], call, guard) == second[3..];
    assert Replace(second[2..], call, guard) == [second[2]] + second[3..];
    assert Replace(second[1..], call, guard) == [second[1]] + ([second[2]] + second[3..]);
    assert second == [second[0]] + ([second[1]] + ([second[2]] + second[3..]));
  }

  /** Its `getSize` call is already guarded, so nothing is rewritten. */
  lemma RerunNoGetSize()
    ensures Replace("B()?.getSize", PaneCall("B", "getSize"), GuardedCall("B", "getSize")) == "B()?.getSize"
  {
    var second := "B()?.getSize";
    var size, guardedSize := PaneCall("B", "getSize"), GuardedCall("B", "getSize");
    assert size == "B().getSize";
    assert second[..11][3] != size[3] && second[1..][..11][0] != size[0];
    assert Replace(second[2..], size, guardedSize) == second[2..];
    assert Replace(second[1..], size, guardedSize) == [second[1]] + second[2..];
    assert second == [second[0]] + ([second[1]] + second[2..]);
  }

  /** `_patch_chat_controls_pane_resize_guard` on one chunk file. */
  method PatchChatControls(file: TextFile, binding: Option<string>, dryRun: bool) returns (applied: bool, message: string)
    modifies file
    ensures (applied, message) == Report(PaneDecision(old(file.text), binding), dryRun)
    ensures file.text == if applied && !dryRun then PaneDecision(old(file.text), binding).patched else old(file.text)
  {
    var original := file.text;
    applied, message := Commit(file, PaneDecision(original, binding), dryRun);
  }

  // ---------------------------------------------------------------------
  // `_patch_call_overlay_background_audio`.
  // ---------------------------------------------------------------------

  /**
   * The call-overlay verdict. `rewrite` stands for the regular-expression
   * substitution of `requestAnimationFrame(<identifier>)` by a timer call:
   * it gives the new text and the number of substitutions.
   */
  function CallOverlayDecision(original: string, rewrite: string -> (string, nat)): Decision {
    if !Contains(original, "requestAnimationFrame") then Already
    else
      var (patched, count) := rewrite(original);
      if count == 0 then Unpatched("pattern not found; upstream changed?")
      else Patch(patched, IntToString(count) + " replacements")
  }

  /** `_patch_call_overlay_background_audio` on one chunk file. */
  method PatchCallOverlay(file: TextFile, rewrite: string -> (string, nat), dryRun: bool) returns (applied: bool, message: string)
    modifies file
    ensures !Contains(old(file.text), "requestAnimationFrame") ==> (applied, message) == (false, "already")
    ensures (applied, message) == Report(CallOverlayDecision(old(file.text), rewrite), dryRun)
    ensures file.text == if applied && !dryRun then CallOverlayDecision(old(file.text), rewrite).patched else old(file.text)
  {
    var original := file.text;
    applied, message := Commit(file, CallOverlayDecision(original, rewrite), dryRun);
  }

  // ---------------------------------------------------------------------
  // `_patch_router_audio_cartesia`.
  // ---------------------------------------------------------------------

  /** The literal anchors and replacements of the audio-router patch. */
  datatype AudioEdits = AudioEdits(
    insertAnchor: string, helpers: string,
    headersMarker: string, headerInject: string,
    postBlock: string, postRepl: string,
    sttAnchor: string, sttRepl: string)

  /** Every anchor is a non-empty text. */
  predicate Anchored(e: AudioEdits) {
    |e.insertAnchor| > 0 && |e.headersMarker| > 0 && |e.postBlock| > 0 && |e.sttAnchor| > 0
  }

  /** Replace every `anchor` by `repl`, but only where the anchor is there and the mark `unless` is not yet. */
  function GuardedEdit(text: string, anchor: string, unless: string, repl: string): string
    requires |anchor| > 0
  {
    if Contains(text, anchor) && !Contains(text, unless) then Replace(text, anchor, repl) else text
  }

  /** A guarded edit whose replacement carries its own mark is done once: repeating it changes nothing. */
  lemma GuardedEditSettles(text: string, anchor: string, unless: string, repl: string)
    requires |anchor| > 0 && Contains(repl, unless)
    ensures var once := GuardedEdit(text, anchor, unless, repl);
      GuardedEdit(once, anchor, unless, repl) == once
  {
    if Contains(text, anchor) && !Contains(text, unless) {
      CountZeroIff(text, anchor);
      ReplaceIntroduces(text, anchor, repl);
      ContainsTrans(Replace(text, anchor, repl), repl, unless);
    }
  }

  /** The helper insertion (the anchor followed by the helpers) is such an edit once the helpers define `get_cartesia_voices`. */
  lemma HelpersInsertSettles(text: string, e: AudioEdits)
    requires Anchored(e) && Contains(e.helpers, "def get_cartesia_voices(")
    ensures var once := GuardedEdit(text, e.insertAnchor, "def get_cartesia_voices(", e.insertAnchor + e.helpers);
      GuardedEdit(once, e.insertAnchor, "def get_cartesia_voices(", e.insertAnchor + e.helpers) == once
  {
    ContainsAppend(e.insertAnchor, e.helpers, "def get_cartesia_voices(");
    GuardedEditSettles(text, e.insertAnchor, "def get_cartesia_voices(", e.insertAnchor + e.helpers);
  }

  /**
   * The audio-router verdict. `voices` stands for the regular-expression
   * rewrite of the voice-listing block: `None` when the block is not found.
   */
  function AudioDecision(original: string, e: AudioEdits, voices: string -> Option<string>): Decision
    requires Anchored(e)
  {
    if Contains(original, "def get_cartesia_voices(") && Contains(original, "Cartesia-Version") && Contains(original, "/tts/bytes")
    then Already
    else if !Contains(original, e.insertAnchor) then Unpatched("anchor not found; upstream changed?")
    else
      var t1 := GuardedEdit(original, e.insertAnchor, "def get_cartesia_voices(", e.insertAnchor + e.helpers);
      match voices(t1)
      case None => Unpatched("voice listing block not found; upstream changed?")
      case Some(t2) =>
        var t3 := GuardedEdit(t2, e.headersMarker, "headers[\"Cartesia-Version\"]", e.headerInject);
        var t4 := GuardedEdit(t3, e.postBlock, "/tts/bytes", e.postRepl);
        var t5 := if Contains(t4, e.sttAnchor) then Replace(t4, e.sttAnchor, e.sttRepl) else t4;
        if t5 == original then Unpatched("no changes applied") else Patch(t5, "")
  }

  /** `_patch_router_audio_cartesia` on the audio router's source file. */
  method PatchAudioCartesia(file: TextFile, e: AudioEdits, voices: string -> Option<string>, dryRun: bool)
    returns (applied: bool, message: string)
    requires Anchored(e)
    modifies file
    ensures (applied, message) == Report(AudioDecision(old(file.text), e, voices), dryRun)
    ensures file.text == if applied && !dryRun then AudioDecision(old(file.text), e, voices).patched else old(file.text)
  {
    var original := file.text;
    applied, message := Commit(file, AudioDecision(original, e, voices), dryRun);
  }

  // ---------------------------------------------------------------------
  // `_patch_router_openai_provider_timing`.
  // ---------------------------------------------------------------------

  /** The mark the provider-timing patch leaves in the router. */
  const ProviderTimingMarker := "OWUI_LOCAL_PATCH_PROVIDER_TIMING"

  /** One required edit: the first `anchor` becomes `replacement`; a missing anchor stops the patch with `lost` as the reason. */
  datatype Edit = Edit(anchor: string, replacement: string, lost: string)

  /** The edits applied one after another, each on the first occurrence of its anchor. */
  function Run(text: string, edits: seq<Edit>): string
    decreases |edits|
  {
    if edits == [] then text
    else Run(ReplaceFirst(text, edits[0].anchor, edits[0].replacement), edits[1..])
  }

  /** Every anchor is there when its turn comes. */
  ghost predicate AllAnchored(text: string, edits: seq<Edit>) {
    forall j :: 0 <= j < |edits| ==> Contains(Run(text, edits[..j]), edits[j].anchor)
  }

  /** The required edits in order, stopping at the first anchor that is not found. */
  function ApplyEdits(text: string, edits: seq<Edit>): (r: Result<string, string>)
    ensures r.Err? ==> exists k :: 0 <= k < |edits| && r.error == edits[k].lost
    decreases |edits|
  {
    if edits == [] then Ok(text)
    else if !Contains(text, edits[0].anchor) then Err(edits[0].lost)
    else
      var r := ApplyEdits(ReplaceFirst(text, edits[0].anchor, edits[0].replacement), edits[1..]);
      assert r.Err? ==> exists k :: 1 <= k < |edits| && r.error == edits[k].lost by {
        if r.Err? {
          var k :| 0 <= k < |edits[1..]| && r.error == edits[1..][k].lost;
          assert edits[k + 1] == edits[1..][k];
        }
      }
      r
  }

  /** Running a non-empty prefix is running the rest of it on the text after the first edit. */
  lemma RunCons(text: string, edits: seq<Edit>, j: nat)
    requires 1 <= j <= |edits|
    ensures Run(text, edits[..j]) == Run(ReplaceFirst(text, edits[0].anchor, edits[0].replacement), edits[1..][..j - 1])
  {
    assert edits[..j][1..] == edits[1..][..j - 1];
  }

  /** The required edits succeed exactly when every anchor is there in its turn, and then give the edits run in order. */
  lemma {:induction false} ApplyEditsOk(text: string, edits: seq<Edit>)
    ensures ApplyEdits(text, edits).Ok? <==> AllAnchored(text, edits)
    ensures ApplyEdits(text, edits).Ok? ==> ApplyEdits(text, edits).value == Run(text, edits)
    decreases |edits|
  {
    if edits != [] {
      var t1 := ReplaceFirst(text, edits[0].anchor, edits[0].replacement);
      var rest := edits[1..];
      ApplyEditsOk(t1, rest);
      assert edits[..0] == [];
      forall j | 1 <= j <= |edits| {
        RunCons(text, edits, j);
      }
      if AllAnchored(t1, rest) && Contains(text, edits[0].anchor) {
        forall j | 0 <= j < |edits|
          ensures Contains(Run(text, edits[..j]), edits[j].anchor)
        {
          if j > 0 {
            assert edits[j] == rest[j - 1];
          }
        }
      }
      if AllAnchored(text, edits) {
        assert Contains(Run(text, edits[..0]), edits[0].anchor);
        forall j | 0 <= j < |rest|
          ensures Contains(Run(t1, rest[..j]), rest[j].anchor)
        {
          assert rest[j] == edits[j + 1];
        }
      }
    }
  }

  /** When every earlier anchor was there, a missing `k`-th anchor stops the edits with its own reason. */
  lemma {:induction false} ApplyEditsMissing(text: string, edits: seq<Edit>, k: nat)
    requires k < |edits|
    requires forall j :: 0 <= j < k ==> Contains(Run(text, edits[..j]), edits[j].anchor)
    requires !Contains(Run(text, edits[..k]), edits[k].anchor)
    ensures ApplyEdits(text, edits) == Err(edits[k].lost)
    decreases k
  {
    assert edits[..0] == [];
    if k > 0 {
      var t1 := ReplaceFirst(text, edits[0].anchor, edits[0].replacement);
      var rest := edits[1..];
      assert Contains(Run(text, edits[..0]), edits[0].anchor);
      forall j | 0 <= j < k - 1
        ensures Contains(Run(t1, rest[..j]), rest[j].anchor)
      {
        RunCons(text, edits, j + 1);
        assert rest[j] == edits[j + 1];
      }
      RunCons(text, edits, k);
      assert rest[k - 1] == edits[k];
      ApplyEditsMissing(t1, rest, k - 1);
    }
  }

  /** The long anchors and the replacement bodies of the provider-timing patch. */
  datatype TimingBodies = TimingBodies(
    dumpsRepl: string, tryStartRepl: string, requestEndRepl: string,
    streamingBlock: string, streamingRepl: string,
    nonStreamingAnchor: string, nonStreamingRepl: string,
    exceptionRepl: string)

  /** The anchors of the provider-timing patch that are short literals. */
  const DumpsAnchor := "    payload = json.dumps(payload)\n"
  const TryStartAnchor := "    try:\n        session = aiohttp.ClientSession(\n"
  const RequestEndAnchor := "        )\n\n        # Check if response is SSE\n"
  const ExceptionAnchor := "    except Exception as e:\n        log.exception(e)\n"

  /** The reason reported when an anchor of the provider-timing patch is missing. */
  function Lost(what: string): string {
    what + " not found; upstream changed?"
  }

  /** What each anchor of the provider-timing patch is called in its report. */
  const DumpsLost := Lost("payload json.dumps anchor")
  const TryStartLost := Lost("try/session anchor")
  const RequestEndLost := Lost("request/stream anchor")
  const StreamingLost := Lost("streaming return block")
  const NonStreamingLost := Lost("non-streaming parse block")
  const ExceptionLost := Lost("exception handler anchor")

  /** The six required edits of the provider-timing patch, in the order the source makes them. */
  function TimingEdits(b: TimingBodies): seq<Edit> {
    [ Edit(DumpsAnchor, b.dumpsRepl, DumpsLost),
      Edit(TryStartAnchor, b.tryStartRepl, TryStartLost),
      Edit(RequestEndAnchor, b.requestEndRepl, RequestEndLost),
      Edit(b.streamingBlock, b.streamingRepl, StreamingLost),
      Edit(b.nonStreamingAnchor, b.nonStreamingRepl, NonStreamingLost),
      Edit(ExceptionAnchor, b.exceptionRepl, ExceptionLost) ]
  }

  /**
   * The `import time` step: kept as is when the line is there, otherwise
   * `addImport` (the regular-expression insertion after the first
   * `import json` line) must have made its one substitution.
   */
  function ImportStep(original: string, addImport: string -> (string, nat)): Result<string, string> {
    if Contains(original, "import time\n") then Ok(original)
    else
      var (t, count) := addImport(original);
      if count == 0 then Err("import json anchor not found; upstream changed?") else Ok(t)
  }

  /** The provider-timing verdict on the router's text. */
  function TimingDecision(original: string, addImport: string -> (string, nat), edits: seq<Edit>): Decision {
    if Contains(original, ProviderTimingMarker) then Already
    else
      match ImportStep(original, addImport)
      case Err(why) => Unpatched(why)
      case Ok(t) =>
        match ApplyEdits(t, edits)
        case Err(why) => Unpatched(why)
        case Ok(patched) => if patched == original then Unpatched("no changes applied") else Patch(patched, "")
  }

  /**
   * Without the marker and past the import step, the verdict is the edits
   * run in order when every anchor is found, and otherwise "unpatched" with
   * the reason of the first anchor that is missing.
   */
  lemma TimingOutcome(original: string, addImport: string -> (string, nat), edits: seq<Edit>)
    requires !Contains(original, ProviderTimingMarker) && ImportStep(original, addImport).Ok?
    ensures var t := ImportStep(original, addImport).value;
      AllAnchored(t, edits) ==>
        TimingDecision(original, addImport, edits) ==
          if Run(t, edits) == original then Unpatched("no changes applied") else Patch(Run(t, edits), "")
    ensures var t := ImportStep(original, addImport).value;
      forall k :: 0 <= k < |edits| && (forall j :: 0 <= j < k ==> Contains(Run(t, edits[..j]), edits[j].anchor))
                  && !Contains(Run(t, edits[..k]), edits[k].anchor)
        ==> TimingDecision(original, addImport, edits) == Unpatched(edits[k].lost)
  {
    var t := ImportStep(original, addImport).value;
    ApplyEditsOk(t, edits);
    forall k | 0 <= k < |edits| && (forall j :: 0 <= j < k ==> Contains(Run(t, edits[..j]), edits[j].anchor))
                && !Contains(Run(t, edits[..k]), edits[k].anchor)
      ensures TimingDecision(original, addImport, edits) == Unpatched(edits[k].lost)
    {
      ApplyEditsMissing(t, edits, k);
    }
  }

  /** The provider-timing verdict with the source's own six edits. */
  function TimingPatch(original: string, addImport: string -> (string, nat), bodies: TimingBodies): Decision {
    TimingDecision(original, addImport, TimingEdits(bodies))
  }

  /** `_patch_router_openai_provider_timing` on the OpenAI router's source file. */
  method PatchProviderTiming(file: TextFile, addImport: string -> (string, nat), bodies: TimingBodies, dryRun: bool)
    returns (applied: bool, message: string)
    modifies file
    ensures Contains(old(file.text), ProviderTimingMarker) ==> (applied, message) == (false, "already")
    ensures (applied, message) == Report(TimingPatch(old(file.text), addImport, bodies), dryRun)
    ensures file.text == if applied && !dryRun then TimingPatch(old(file.text), addImport, bodies).patched else old(file.text)
  {
    var original := file.text;
    applied, message := Commit(file, TimingPatch(original, addImport, bodies), dryRun);
  }
}
