/**
 * `ensure_openai_provider_prefixes.py`: gives every OpenAI-compatible
 * provider a distinct `prefix_id` under `openai.api_configs`, so that Open
 * WebUI does not merge models of the same name from different providers.
 * Each mapped URL is configured under the URL itself and, when the URL is
 * listed in `openai.api_base_urls`, under its position there.
 */
module ProviderPrefixes {
  import opened Wrappers
  import opened PyText
  import opened JsonValue
  import opened ConfigStore

  /** The mappings the script always applies, before any `--map`. */
  const DefaultPrefixes: map<string, string> := map[
    "https://api.groq.com/openai/v1" := "groq",
    "https://api.cerebras.ai/v1" := "cerebras",
    "https://api.fireworks.ai/inference/v1" := "fireworks"]

  /** `xs.index(x)`: the first position of `x`. */
  function FirstIndex(xs: seq<Json>, x: Json): (i: nat)
    requires x in xs
    ensures i < |xs| && xs[i] == x && x !in xs[..i]
  {
    if xs[0] == x then 0 else 1 + FirstIndex(xs[1..], x)
  }

  /** `openai.get("api_base_urls")`, with anything but a list read as empty. */
  function BaseUrls(openai: Object): seq<Json> {
    if "api_base_urls" in openai && openai["api_base_urls"].JArr? then openai["api_base_urls"].items else []
  }

  /** The `api_configs` keys a mapping for `url` is written under: its list position, if listed, then the URL. */
  function KeysFor(baseUrls: seq<Json>, url: string): (r: seq<string>)
    ensures r != [] && r[|r| - 1] == url
    ensures JStr(url) in baseUrls ==> r == [IntToString(FirstIndex(baseUrls, JStr(url))), url]
    ensures JStr(url) !in baseUrls ==> r == [url]
  {
    (if JStr(url) in baseUrls then [IntToString(FirstIndex(baseUrls, JStr(url)))] else []) + [url]
  }

  /** One write the script considers: `prefix` for the entry under `key`. */
  datatype Attempt = Attempt(key: string, prefix: string)

  function Pairs(keys: seq<string>, prefix: string): (r: seq<Attempt>)
    ensures |r| == |keys| && forall i :: 0 <= i < |keys| ==> r[i] == Attempt(keys[i], prefix)
  {
    seq(|keys|, i requires 0 <= i < |keys| => Attempt(keys[i], prefix))
  }

  /** The writes considered for `urls`, in order (the script walks the mapping in sorted order). */
  function Attempts(baseUrls: seq<Json>, urls: seq<string>, m: map<string, string>): seq<Attempt>
    requires forall i :: 0 <= i < |urls| ==> urls[i] in m
  {
    if urls == [] then []
    else
      var n := |urls| - 1;
      Attempts(baseUrls, urls[..n], m) + Pairs(KeysFor(baseUrls, urls[n]), m[urls[n]])
  }

  /** The `prefix_id` an entry holds, as the script reads it; a non-object entry holds none. */
  function PrefixOf(configs: Object, key: string): Json {
    PyGet(Child(configs, key), "prefix_id")
  }

  /** The script leaves the entry alone: it already has the prefix, or has another one and `force` is off. */
  predicate Skips(configs: Object, a: Attempt, force: bool) {
    var existing := PrefixOf(configs, a.key);
    existing == JStr(a.prefix) || (Truthy(existing) && !force)
  }

  /** One considered write: the entry (or a fresh object, if it was none) gets `prefix_id`. */
  function SetPrefix(configs: Object, a: Attempt, force: bool): Object {
    if Skips(configs, a, force) then configs
    else configs[a.key := JObj(Child(configs, a.key)["prefix_id" := JStr(a.prefix)])]
  }

  /** The `api_configs` object after the writes `ws`, and whether any was made. */
  function ApplyAll(configs: Object, ws: seq<Attempt>, force: bool): (Object, bool) {
    if ws == [] then (configs, false)
    else
      var (c, changed) := ApplyAll(configs, ws[..|ws| - 1], force);
      var a := ws[|ws| - 1];
      (SetPrefix(c, a, force), changed || !Skips(c, a, force))
  }

  /** The config with `openai.api_configs` set to `c`, creating `openai` if it was not an object. */
  function Rebuild(data: Object, c: Object): Object {
    data["openai" := JObj(Child(data, "openai")["api_configs" := JObj(c)])]
  }

  /** `_ensure_openai_prefixes`: the config after the edit, and the `changed` it returns. */
  function PrefixesOutcome(data: Object, m: map<string, string>, force: bool): (Object, bool) {
    var openai := Child(data, "openai");
    var (c, changed) := ApplyAll(Child(openai, "api_configs"), Attempts(BaseUrls(openai), SortedKeys(m.Keys), m), force);
    (Rebuild(data, c), changed)
  }

  /** Rebuilding touches `openai.api_configs` and nothing else. */
  lemma RebuildFrame(data: Object, c: Object)
    ensures SameBut(Rebuild(data, c), data, "openai")
    ensures SameBut(Child(Rebuild(data, c), "openai"), Child(data, "openai"), "api_configs")
    ensures Child(Child(Rebuild(data, c), "openai"), "api_configs") == c
    ensures BaseUrls(Child(Rebuild(data, c), "openai")) == BaseUrls(Child(data, "openai"))
  {
    var openai2 := Child(data, "openai")["api_configs" := JObj(c)];
    assert Child(Rebuild(data, c), "openai") == openai2;
  }

  /** Rebuilding with the configs already there changes nothing. */
  lemma RebuildTwice(data: Object, c: Object)
    ensures Rebuild(Rebuild(data, c), c) == Rebuild(data, c)
  {
    var openai2 := Child(data, "openai")["api_configs" := JObj(c)];
    assert Child(Rebuild(data, c), "openai") == openai2;
    assert openai2["api_configs" := JObj(c)] == openai2;
  }

  // ---------------------------------------------------------------------
  // The edit, step by step.
  // ---------------------------------------------------------------------

  lemma ApplyAllSnoc(configs: Object, ws: seq<Attempt>, a: Attempt, force: bool)
    ensures ApplyAll(configs, ws + [a], force)
      == (SetPrefix(ApplyAll(configs, ws, force).0, a, force),
          ApplyAll(configs, ws, force).1 || !Skips(ApplyAll(configs, ws, force).0, a, force))
  {
    assert (ws + [a])[..|ws|] == ws;
  }

  lemma AttemptsSnoc(baseUrls: seq<Json>, urls: seq<string>, m: map<string, string>, i: nat)
    requires i < |urls| && forall k :: 0 <= k < |urls| ==> urls[k] in m
    ensures Attempts(baseUrls, urls[..i + 1], m)
      == Attempts(baseUrls, urls[..i], m) + Pairs(KeysFor(baseUrls, urls[i]), m[urls[i]])
  {
    assert urls[..i + 1][..i] == urls[..i];
  }

  lemma PairsSnoc(keys: seq<string>, prefix: string, j: nat)
    requires j < |keys|
    ensures Pairs(keys[..j + 1], prefix) == Pairs(keys[..j], prefix) + [Attempt(keys[j], prefix)]
  {
  }

  /** A run of writes in two parts is the second part run after the first. */
  lemma {:induction false} ApplyAllAppend(configs: Object, ws: seq<Attempt>, more: seq<Attempt>, force: bool)
    ensures var (c1, ch1) := ApplyAll(configs, ws, force);
      var (c2, ch2) := ApplyAll(c1, more, force);
      ApplyAll(configs, ws + more, force) == (c2, ch1 || ch2)
  {
    if more != [] {
      var n := |more| - 1;
      ApplyAllAppend(configs, ws, more[..n], force);
      assert (ws + more)[..|ws| + n] == ws + more[..n];
    } else {
      assert ws + more == ws;
    }
  }

  /** The writes for one URL: each of its keys in turn. */
  method ApplyKeys(configs: Object, keys: seq<string>, prefix: string, force: bool)
    returns (c: Object, changed: bool)
    ensures (c, changed) == ApplyAll(configs, Pairs(keys, prefix), force)
  {
    c, changed := configs, false;
    for j := 0 to |keys|
      invariant (c, changed) == ApplyAll(configs, Pairs(keys[..j], prefix), force)
    {
      PairsSnoc(keys, prefix, j);
      ApplyAllSnoc(configs, Pairs(keys[..j], prefix), Attempt(keys[j], prefix), force);
      var entry := Child(c, keys[j]);
      var existing := PyGet(entry, "prefix_id");
      if existing == JStr(prefix) {
        continue;
      }
      if Truthy(existing) && !force {
        continue;
      }
      c := c[keys[j] := JObj(entry["prefix_id" := JStr(prefix)])];
      changed := true;
    }
    assert keys[..|keys|] == keys;
  }

  lemma MappingStep(configs: Object, baseUrls: seq<Json>, urls: seq<string>, m: map<string, string>, i: nat,
                    force: bool, c: Object, changed: bool, c1: Object, changed1: bool)
    requires i < |urls| && forall k :: 0 <= k < |urls| ==> urls[k] in m
    requires (c, changed) == ApplyAll(configs, Attempts(baseUrls, urls[..i], m), force)
    requires (c1, changed1) == ApplyAll(c, Pairs(KeysFor(baseUrls, urls[i]), m[urls[i]]), force)
    ensures (c1, changed || changed1) == ApplyAll(configs, Attempts(baseUrls, urls[..i + 1], m), force)
  {
    ApplyAllAppend(configs, Attempts(baseUrls, urls[..i], m), Pairs(KeysFor(baseUrls, urls[i]), m[urls[i]]), force);
    AttemptsSnoc(baseUrls, urls, m, i);
  }

  /** The loop over the mapping in sorted order, with the `changed` flag. */
  method ApplyMappings(configs: Object, baseUrls: seq<Json>, urls: seq<string>, m: map<string, string>, force: bool)
    returns (c: Object, changed: bool)
    requires forall k :: 0 <= k < |urls| ==> urls[k] in m
    ensures (c, changed) == ApplyAll(configs, Attempts(baseUrls, urls, m), force)
  {
    c, changed := configs, false;
    for i := 0 to |urls|
      invariant (c, changed) == ApplyAll(configs, Attempts(baseUrls, urls[..i], m), force)
    {
      var keys := KeysFor(baseUrls, urls[i]);
      var c1, changed1 := ApplyKeys(c, keys, m[urls[i]], force);
      MappingStep(configs, baseUrls, urls, m, i, force, c, changed, c1, changed1);
      c, changed := c1, changed || changed1;
    }
    assert urls[..|urls|] == urls;
  }

  /** `_ensure_openai_prefixes`, editing the decoded config in place. */
  method EnsureOpenAIPrefixes(doc: Doc, m: map<string, string>, force: bool) returns (changed: bool)
    modifies doc
    ensures (doc.data, changed) == PrefixesOutcome(old(doc.data), m, force)
  {
    ghost var data0 := doc.data;
    doc.data := EnsureDict(doc.data, "openai");
    var openai := Child(doc.data, "openai");
    assert openai == Child(data0, "openai");
    openai := EnsureDict(openai, "api_configs");
    var configs := Child(openai, "api_configs");
    assert configs == Child(Child(data0, "openai"), "api_configs");
    assert BaseUrls(openai) == BaseUrls(Child(data0, "openai"));
    configs, changed := ApplyMappings(configs, BaseUrls(openai), SortedKeys(m.Keys), m, force);
    StoreAfterEnsure(Child(data0, "openai"), "api_configs", JObj(configs));
    StoreAfterEnsure(data0, "openai", JObj(openai["api_configs" := JObj(configs)]));
    assert Rebuild(data0, configs) == data0["openai" := JObj(openai["api_configs" := JObj(configs)])];
    doc.data := doc.data["openai" := JObj(openai["api_configs" := JObj(configs)])];
  }

  // ---------------------------------------------------------------------
  // What the edit promises.
  // ---------------------------------------------------------------------

  /** The keys the writes `ws` name. */
  ghost function Touched(ws: seq<Attempt>): set<string> {
    set i | 0 <= i < |ws| :: ws[i].key
  }

  /**
   * Entries the writes do not name are untouched; an entry that was an
   * object keeps every field but `prefix_id`.
   */
  ghost predicate OnlyPrefixes(before: Object, after: Object, keys: set<string>) {
    && (forall k :: k !in keys ==> (k in after <==> k in before) && (k in before ==> after[k] == before[k]))
    && (forall k :: k in keys ==> k in after && after[k].JObj?)
    && (forall k :: k in before && before[k].JObj? ==> SameBut(Child(after, k), before[k].fields, "prefix_id"))
  }

  lemma TouchedSnoc(ws: seq<Attempt>)
    requires ws != []
    ensures Touched(ws) == Touched(ws[..|ws| - 1]) + {ws[|ws| - 1].key}
  {
    var init := ws[..|ws| - 1];
    forall k | k in Touched(ws) ensures k in Touched(init) + {ws[|ws| - 1].key} {
      var i :| 0 <= i < |ws| && ws[i].key == k;
      if i < |init| { assert init[i] == ws[i]; }
    }
    forall k | k in Touched(init) ensures k in Touched(ws) {
      var i :| 0 <= i < |init| && init[i].key == k;
      assert ws[i] == init[i];
    }
  }

  /** One more write keeps the frame, with its key added. */
  lemma FrameStep(before: Object, c: Object, keys: set<string>, a: Attempt, force: bool)
    requires OnlyPrefixes(before, c, keys)
    ensures OnlyPrefixes(before, SetPrefix(c, a, force), keys + {a.key})
  {
    var r := SetPrefix(c, a, force);
    if !Skips(c, a, force) {
      assert r[a.key] == JObj(Child(c, a.key)["prefix_id" := JStr(a.prefix)]);
      forall k | k in before && before[k].JObj? ensures SameBut(Child(r, k), before[k].fields, "prefix_id") {
        if k == a.key {
          assert SameBut(Child(c, k), before[k].fields, "prefix_id");
        }
      }
    } else {
      assert a.key in c && c[a.key].JObj?;
    }
  }

  lemma {:induction false} ApplyAllFrame(configs: Object, ws: seq<Attempt>, force: bool)
    ensures OnlyPrefixes(configs, ApplyAll(configs, ws, force).0, Touched(ws))
  {
    if ws != [] {
      var init := ws[..|ws| - 1];
      ApplyAllFrame(configs, init, force);
      TouchedSnoc(ws);
      FrameStep(configs, ApplyAll(configs, init, force).0, Touched(init), ws[|ws| - 1], force);
    }
  }

  /** Nothing outside `openai.api_configs` changes, apart from creating `openai` and `api_configs` when missing. */
  lemma PrefixesFrame(data: Object, m: map<string, string>, force: bool)
    ensures var r := PrefixesOutcome(data, m, force).0;
      && SameBut(r, data, "openai")
      && SameBut(Child(r, "openai"), Child(data, "openai"), "api_configs")
      && OnlyPrefixes(Child(Child(data, "openai"), "api_configs"), Child(Child(r, "openai"), "api_configs"),
                      Touched(Attempts(BaseUrls(Child(data, "openai")), SortedKeys(m.Keys), m)))
  {
    var openai := Child(data, "openai");
    var ws := Attempts(BaseUrls(openai), SortedKeys(m.Keys), m);
    var c := ApplyAll(Child(openai, "api_configs"), ws, force).0;
    RebuildFrame(data, c);
    ApplyAllFrame(Child(openai, "api_configs"), ws, force);
  }

  /** Every URL but the last is still mapped. */
  lemma FrontMapped(urls: seq<string>, front: seq<string>, m: map<string, string>)
    requires |urls| > 0 && front == urls[..|urls| - 1]
    requires forall k :: 0 <= k < |urls| ==> urls[k] in m
    ensures forall k :: 0 <= k < |front| ==> front[k] in m
  {
    forall k | 0 <= k < |front| ensures front[k] in m {
      assert front[k] == urls[k];
    }
  }

  /** The writes for the last URL are among the attempts. */
  lemma LastHolds(baseUrls: seq<Json>, urls: seq<string>, m: map<string, string>, j: nat)
    requires |urls| > 0 && forall k :: 0 <= k < |urls| ==> urls[k] in m
    requires j < |KeysFor(baseUrls, urls[|urls| - 1])|
    ensures Attempt(KeysFor(baseUrls, urls[|urls| - 1])[j], m[urls[|urls| - 1]]) in Attempts(baseUrls, urls, m)
  {
    var n := |urls| - 1;
    var pre := Attempts(baseUrls, urls[..n], m);
    var last := Pairs(KeysFor(baseUrls, urls[n]), m[urls[n]]);
    assert (pre + last)[|pre| + j] == last[j];
  }

  /** The attempts for all but the last URL are among the attempts. */
  lemma FrontHolds(baseUrls: seq<Json>, urls: seq<string>, m: map<string, string>, a: Attempt)
    requires |urls| > 0 && forall k :: 0 <= k < |urls| ==> urls[k] in m
    requires a in Attempts(baseUrls, urls[..|urls| - 1], m)
    ensures a in Attempts(baseUrls, urls, m)
  {
  }

  /** The write for `urls[i]` under its `j`-th key is among the attempts. */
  lemma {:induction false} AttemptsHold(baseUrls: seq<Json>, urls: seq<string>, m: map<string, string>, i: nat, j: nat)
    requires forall k :: 0 <= k < |urls| ==> urls[k] in m
    requires i < |urls| && j < |KeysFor(baseUrls, urls[i])|
    ensures Attempt(KeysFor(baseUrls, urls[i])[j], m[urls[i]]) in Attempts(baseUrls, urls, m)
    decreases |urls|
  {
    var n := |urls| - 1;
    if i == n {
      LastHolds(baseUrls, urls, m, j);
    } else {
      var front := urls[..n];
      FrontMapped(urls, front, m);
      assert front[i] == urls[i];
      AttemptsHold(baseUrls, front, m, i, j);
      FrontHolds(baseUrls, urls, m, Attempt(KeysFor(baseUrls, urls[i])[j], m[urls[i]]));
    }
  }

  /** Every mapped URL is written under the URL itself. */
  lemma AttemptsCoverUrl(baseUrls: seq<Json>, urls: seq<string>, m: map<string, string>, i: nat)
    requires forall k :: 0 <= k < |urls| ==> urls[k] in m
    requires i < |urls|
    ensures Attempt(urls[i], m[urls[i]]) in Attempts(baseUrls, urls, m)
  {
    AttemptsHold(baseUrls, urls, m, i, |KeysFor(baseUrls, urls[i])| - 1);
  }

  /** A mapped URL listed in `api_base_urls` is also written under its first position there. */
  lemma AttemptsCoverIndex(baseUrls: seq<Json>, urls: seq<string>, m: map<string, string>, i: nat)
    requires forall k :: 0 <= k < |urls| ==> urls[k] in m
    requires i < |urls| && JStr(urls[i]) in baseUrls
    ensures Attempt(IntToString(FirstIndex(baseUrls, JStr(urls[i]))), m[urls[i]]) in Attempts(baseUrls, urls, m)
  {
    AttemptsHold(baseUrls, urls, m, i, 0);
  }

  /** A write that finds its prefix, or another truthy one without force, is settled: running it again does nothing. */
  predicate Settled(configs: Object, a: Attempt, force: bool) {
    Skips(configs, a, force)
  }

  lemma {:induction false} SettledKeepsAll(configs: Object, ws: seq<Attempt>, force: bool)
    requires forall i :: 0 <= i < |ws| ==> Settled(configs, ws[i], force)
    ensures ApplyAll(configs, ws, force) == (configs, false)
  {
    if ws != [] {
      SettledKeepsAll(configs, ws[..|ws| - 1], force);
    }
  }

  /** Without force, every write is settled once the run is over. */
  lemma {:induction false} ApplyAllSettles(configs: Object, ws: seq<Attempt>)
    ensures forall i :: 0 <= i < |ws| ==> Settled(ApplyAll(configs, ws, false).0, ws[i], false)
  {
    if ws != [] {
      var init := ws[..|ws| - 1];
      var a := ws[|ws| - 1];
      ApplyAllSettles(configs, init);
      var c := ApplyAll(configs, init, false).0;
      var r := SetPrefix(c, a, false);
      forall i | 0 <= i < |ws| ensures Settled(r, ws[i], false) {
        if i < |init| {
          assert ws[i] == init[i];
          SettledAfterStep(c, a, init[i]);
        }
      }
    }
  }

  /** One write without force keeps an earlier settled write settled. */
  lemma SettledAfterStep(c: Object, a: Attempt, b: Attempt)
    requires Settled(c, b, false)
    ensures Settled(SetPrefix(c, a, false), b, false)
  {
    if !Skips(c, a, false) && b.key == a.key {
      // The entry held no truthy prefix, so `b` found its own, the empty one, and `a`'s differs.
      assert PrefixOf(c, b.key) == JStr(b.prefix) && b.prefix == "";
      assert PrefixOf(SetPrefix(c, a, false), b.key) == JStr(a.prefix);
    }
  }

  /** A run without force settles the config: running it again with the same mapping returns false and changes nothing. */
  lemma PrefixesIdempotent(data: Object, m: map<string, string>)
    ensures var (r, _) := PrefixesOutcome(data, m, false);
      PrefixesOutcome(r, m, false) == (r, false)
  {
    var openai := Child(data, "openai");
    var ws := Attempts(BaseUrls(openai), SortedKeys(m.Keys), m);
    var c := ApplyAll(Child(openai, "api_configs"), ws, false).0;
    RebuildFrame(data, c);
    ApplyAllSettles(Child(openai, "api_configs"), ws);
    SettledKeepsAll(c, ws, false);
    RebuildTwice(data, c);
  }

  /** With force, the last write to each key decides its prefix. */
  lemma {:induction false} ForceLastWins(configs: Object, ws: seq<Attempt>, i: nat)
    requires i < |ws| && forall j :: i < j < |ws| ==> ws[j].key != ws[i].key
    ensures PrefixOf(ApplyAll(configs, ws, true).0, ws[i].key) == JStr(ws[i].prefix)
  {
    var n := |ws| - 1;
    var c := ApplyAll(configs, ws[..n], true).0;
    if i < n {
      ForceLastWins(configs, ws[..n], i);
      assert ws[..n][i] == ws[i];
    }
  }

  /** No write made means the config is exactly as it was. */
  lemma {:induction false} UnchangedWhenFalse(configs: Object, ws: seq<Attempt>, force: bool)
    ensures !ApplyAll(configs, ws, force).1 ==> ApplyAll(configs, ws, force).0 == configs
  {
    if ws != [] {
      UnchangedWhenFalse(configs, ws[..|ws| - 1], force);
    }
  }

  /** A write without force never touches an entry that already holds a truthy prefix. */
  lemma TruthyStep(c: Object, a: Attempt, k: string)
    requires Truthy(PrefixOf(c, k))
    ensures var r := SetPrefix(c, a, false);
      (k in r <==> k in c) && (k in c ==> r[k] == c[k])
  {
  }

  /** Without force, an entry whose `prefix_id` is already truthy ends the run exactly as it was. */
  lemma {:induction false} TruthyPrefixKept(configs: Object, ws: seq<Attempt>, k: string)
    requires Truthy(PrefixOf(configs, k))
    ensures var r := ApplyAll(configs, ws, false).0;
      k in configs && k in r && r[k] == configs[k]
  {
    if ws != [] {
      var n := |ws| - 1;
      TruthyPrefixKept(configs, ws[..n], k);
      var c := ApplyAll(configs, ws[..n], false).0;
      assert PrefixOf(c, k) == PrefixOf(configs, k);
      TruthyStep(c, ws[n], k);
    }
  }

  /** Writes for other keys, or of the empty prefix, leave a falsy `prefix_id` falsy. */
  lemma {:induction false} FalsyPrefixStays(configs: Object, ws: seq<Attempt>, k: string)
    requires !Truthy(PrefixOf(configs, k))
    requires forall j :: 0 <= j < |ws| ==> ws[j].key != k || ws[j].prefix == ""
    ensures !Truthy(PrefixOf(ApplyAll(configs, ws, false).0, k))
  {
    if ws != [] {
      var n := |ws| - 1;
      FalsyPrefixStays(configs, ws[..n], k);
      var c := ApplyAll(configs, ws[..n], false).0;
      var a := ws[n];
      if !Skips(c, a, false) && a.key == k {
        assert PrefixOf(SetPrefix(c, a, false), k) == JStr("");
      }
    }
  }

  /** A write without force to an entry whose `prefix_id` is falsy gives it the write's prefix. */
  lemma FalsyStep(c: Object, a: Attempt)
    requires !Truthy(PrefixOf(c, a.key))
    ensures PrefixOf(SetPrefix(c, a, false), a.key) == JStr(a.prefix)
  {
  }

  /**
   * Without force, only missing prefixes are set: an entry whose `prefix_id`
   * is falsy gets the prefix of the first write to it with a non-empty
   * prefix, and later writes to it are skipped.
   */
  lemma {:induction false} FirstPrefixWins(configs: Object, ws: seq<Attempt>, k: string, i: nat)
    requires !Truthy(PrefixOf(configs, k))
    requires i < |ws| && ws[i].key == k && ws[i].prefix != ""
    requires forall j :: 0 <= j < i ==> ws[j].key != k || ws[j].prefix == ""
    ensures PrefixOf(ApplyAll(configs, ws, false).0, k) == JStr(ws[i].prefix)
  {
    var n := |ws| - 1;
    var front := ws[..n];
    var c := ApplyAll(configs, front, false).0;
    if i == n {
      forall j | 0 <= j < |front| ensures front[j].key != k || front[j].prefix == "" {
        assert front[j] == ws[j];
      }
      FalsyPrefixStays(configs, front, k);
      FalsyStep(c, ws[n]);
    } else {
      forall j | 0 <= j < i ensures front[j].key != k || front[j].prefix == "" {
        assert front[j] == ws[j];
      }
      assert front[i] == ws[i];
      FirstPrefixWins(configs, front, k, i);
      TruthyStep(c, ws[n], k);
      assert Child(SetPrefix(c, ws[n], false), k) == Child(c, k);
    }
  }

  /** The script's run without force keeps every entry that already had a truthy `prefix_id`. */
  lemma PrefixesKeepExisting(data: Object, m: map<string, string>, k: string)
    requires Truthy(PrefixOf(Child(Child(data, "openai"), "api_configs"), k))
    ensures var r := PrefixesOutcome(data, m, false).0;
      Child(Child(Child(r, "openai"), "api_configs"), k) == Child(Child(Child(data, "openai"), "api_configs"), k)
  {
    var openai := Child(data, "openai");
    var ws := Attempts(BaseUrls(openai), SortedKeys(m.Keys), m);
    var c := ApplyAll(Child(openai, "api_configs"), ws, false).0;
    RebuildFrame(data, c);
    TruthyPrefixKept(Child(openai, "api_configs"), ws, k);
  }

  // ---------------------------------------------------------------------
  // `--map URL=PREFIX`.
  // ---------------------------------------------------------------------

  datatype MapError = MissingEquals(raw: string) | EmptySide(raw: string)

  /** One `--map` value: split at the first `=`, both sides trimmed and non-empty. */
  function ParseMapArg(raw: string): (r: Result<(string, string), MapError>)
    ensures r.Ok? ==> r.value.0 != "" && r.value.1 != ""
    ensures '=' !in raw ==> r == Err(MissingEquals(raw))
  {
    match SplitOnce(raw, '=')
    case None => Err(MissingEquals(raw))
    case Some((url, prefix)) =>
      if Strip(url) == "" || Strip(prefix) == "" then Err(EmptySide(raw))
      else Ok((Strip(url), Strip(prefix)))
  }

  /** A `URL=PREFIX` written without spaces round the sides and no `=` in the URL reads back as that pair. */
  lemma MapArgRoundTrip(url: string, prefix: string)
    requires url != "" && prefix != "" && Strip(url) == url && Strip(prefix) == prefix && '=' !in url
    ensures ParseMapArg(url + "=" + prefix) == Ok((url, prefix))
  {
    var raw := url + "=" + prefix;
    assert raw[|url|] == '=';
    var split := SplitOnce(raw, '=');
    assert split.Some?;
    var (u, p) := split.value;
    assert |u| == |url|;
    assert u == raw[..|url|] == url;
    assert p == raw[|url| + 1..] == prefix;
  }

  /** The results in order, or the first error among them. */
  function Collect<T, E>(rs: seq<Result<T, E>>): Result<seq<T>, E> {
    if rs == [] then Ok([])
    else
      var n := |rs| - 1;
      var pre := Collect(rs[..n]);
      if pre.Err? then Err(pre.error)
      else if rs[n].Err? then Err(rs[n].error)
      else Ok(pre.value + [rs[n].value])
  }

  /** A successful collection holds every value, in order. */
  lemma {:induction false} CollectValues<T, E>(rs: seq<Result<T, E>>)
    requires Collect(rs).Ok?
    ensures |Collect(rs).value| == |rs|
    ensures forall i :: 0 <= i < |rs| ==> rs[i] == Ok(Collect(rs).value[i])
  {
    if rs != [] {
      var n := |rs| - 1;
      CollectValues(rs[..n]);
      var pre := Collect(rs[..n]).value;
      forall i | 0 <= i < |rs| ensures rs[i] == Ok(Collect(rs).value[i]) {
        if i < n {
          assert rs[..n][i] == rs[i];
          assert Collect(rs).value[i] == pre[i];
        }
      }
    }
  }

  /** Each `--map` value parsed on its own. */
  function ParsedArgs(raws: seq<string>): (r: seq<Result<(string, string), MapError>>)
    ensures |r| == |raws| && forall i :: 0 <= i < |raws| ==> r[i] == ParseMapArg(raws[i])
  {
    seq(|raws|, i requires 0 <= i < |raws| => ParseMapArg(raws[i]))
  }

  /** Every `--map` value parsed, or the error of the first bad one. */
  function ParseAll(raws: seq<string>): Result<seq<(string, string)>, MapError> {
    Collect(ParsedArgs(raws))
  }

  /** A successful parse holds the pair of each value, in order. */
  lemma ParseAllPairs(raws: seq<string>)
    requires ParseAll(raws).Ok?
    ensures |ParseAll(raws).value| == |raws|
    ensures forall i :: 0 <= i < |raws| ==> ParseMapArg(raws[i]) == Ok(ParseAll(raws).value[i])
  {
    CollectValues(ParsedArgs(raws));
  }

  /** The defaults overridden by each pair in order. */
  function Overlay(defaults: map<string, string>, pairs: seq<(string, string)>): (r: map<string, string>)
    ensures r.Keys == defaults.Keys + set i | 0 <= i < |pairs| :: pairs[i].0
  {
    if pairs == [] then defaults
    else
      var n := |pairs| - 1;
      var r := Overlay(defaults, pairs[..n])[pairs[n].0 := pairs[n].1];
      assert forall i :: 0 <= i < n ==> pairs[..n][i] == pairs[i];
      r
  }

  /** The mapping `main` uses: the defaults, overridden by each `--map` in order. */
  function Mappings(defaults: map<string, string>, raws: seq<string>): Result<map<string, string>, MapError> {
    match ParseAll(raws)
    case Err(e) => Err(e)
    case Ok(pairs) => Ok(Overlay(defaults, pairs))
  }

  /** A URL maps to the prefix of its last `--map`. */
  lemma {:induction false} OverlayLastWins(defaults: map<string, string>, pairs: seq<(string, string)>, i: nat)
    requires i < |pairs| && forall j :: i < j < |pairs| ==> pairs[j].0 != pairs[i].0
    ensures Overlay(defaults, pairs)[pairs[i].0] == pairs[i].1
  {
    var n := |pairs| - 1;
    if i < n {
      assert pairs[..n][i] == pairs[i];
      forall j | i < j < n ensures pairs[..n][j].0 != pairs[..n][i].0 {
        assert pairs[..n][j] == pairs[j];
      }
      OverlayLastWins(defaults, pairs[..n], i);
    }
  }

  /** A URL no `--map` names keeps its default. */
  lemma {:induction false} OverlayKeepsDefault(defaults: map<string, string>, pairs: seq<(string, string)>, url: string)
    requires url in defaults && forall j :: 0 <= j < |pairs| ==> pairs[j].0 != url
    ensures Overlay(defaults, pairs)[url] == defaults[url]
  {
    if pairs != [] {
      var n := |pairs| - 1;
      forall j | 0 <= j < n ensures pairs[..n][j].0 != url {
        assert pairs[..n][j] == pairs[j];
      }
      OverlayKeepsDefault(defaults, pairs[..n], url);
    }
  }

  lemma CollectSnoc<T, E>(rs: seq<Result<T, E>>, i: nat)
    requires i < |rs| && Collect(rs[..i]).Ok? && rs[i].Ok?
    ensures Collect(rs[..i + 1]) == Ok(Collect(rs[..i]).value + [rs[i].value])
  {
    assert rs[..i + 1][..i] == rs[..i];
  }

  lemma OverlaySnoc(defaults: map<string, string>, pairs: seq<(string, string)>, p: (string, string))
    ensures Overlay(defaults, pairs + [p]) == Overlay(defaults, pairs)[p.0 := p.1]
  {
    assert (pairs + [p])[..|pairs|] == pairs;
  }

  /** `--map` parsing in `main`, one value at a time. */
  method ParseMappings(defaults: map<string, string>, raws: seq<string>) returns (r: Result<map<string, string>, MapError>)
    ensures r == Mappings(defaults, raws)
  {
    ghost var rs := ParsedArgs(raws);
    var m := defaults;
    for i := 0 to |raws|
      invariant Collect(rs[..i]).Ok? && m == Overlay(defaults, Collect(rs[..i]).value)
    {
      var raw := raws[i];
      assert rs[i] == ParseMapArg(raw);
      var split := SplitOnce(raw, '=');
      if split.None? {
        CollectStops(rs, i);
        return Err(MissingEquals(raw));
      }
      var url := Strip(split.value.0);
      var prefix := Strip(split.value.1);
      if url == "" || prefix == "" {
        CollectStops(rs, i);
        return Err(EmptySide(raw));
      }
      CollectSnoc(rs, i);
      OverlaySnoc(defaults, Collect(rs[..i]).value, (url, prefix));
      m := m[url := prefix];
    }
    assert rs[..|raws|] == rs;
    return Ok(m);
  }

  /** Once a prefix of the results fails, the whole collection fails the same way. */
  lemma {:induction false} CollectErrKeeps<T, E>(rs: seq<Result<T, E>>, m: nat)
    requires m <= |rs| && Collect(rs[..m]).Err?
    ensures Collect(rs) == Collect(rs[..m])
    decreases |rs|
  {
    if m < |rs| {
      var n := |rs| - 1;
      assert rs[..n][..m] == rs[..m];
      CollectErrKeeps(rs[..n], m);
    } else {
      assert rs[..m] == rs;
    }
  }

  /** The first error decides the result: later entries are not read. */
  lemma CollectStops<T, E>(rs: seq<Result<T, E>>, k: nat)
    requires k < |rs| && rs[k].Err? && Collect(rs[..k]).Ok?
    ensures Collect(rs) == Err(rs[k].error)
  {
    assert rs[..k + 1][..k] == rs[..k];
    CollectErrKeeps(rs, k + 1);
  }

  /** The first bad `--map` value decides the error. */
  lemma ParseAllStops(raws: seq<string>, k: nat)
    requires k < |raws| && ParseMapArg(raws[k]).Err?
    requires forall j :: 0 <= j < k ==> ParseMapArg(raws[j]).Ok?
    ensures ParseAll(raws) == Err(ParseMapArg(raws[k]).error)
  {
    var rs := ParsedArgs(raws);
    CollectAllOk(rs[..k]);
    CollectStops(rs, k);
  }

  /** Results that are all values collect. */
  lemma {:induction false} CollectAllOk<T, E>(rs: seq<Result<T, E>>)
    requires forall j :: 0 <= j < |rs| ==> rs[j].Ok?
    ensures Collect(rs).Ok?
  {
    if rs != [] {
      CollectAllOk(rs[..|rs| - 1]);
    }
  }

  // ---------------------------------------------------------------------
  // The run.
  // ---------------------------------------------------------------------

  /**
   * `main` after its database-URL checks: the mappings are parsed first (a
   * bad `--map` stops the run before the database is read), then the newest
   * config row (if any) is edited and written back unless nothing changed or
   * it is a dry run.
   */
  method RunPrefixes(row: Row?, raws: seq<string>, force: bool, dryRun: bool) returns (status: Result<RunStatus, MapError>)
    modifies row
    ensures Mappings(DefaultPrefixes, raws).Err? ==> status == Err(Mappings(DefaultPrefixes, raws).error)
    ensures Mappings(DefaultPrefixes, raws).Ok? && row == null ==> status == Ok(NoRow)
    ensures Mappings(DefaultPrefixes, raws).Ok? && row != null ==>
      match CoerceJsonObject(old(row.data), false)
      case Err(e) => status == Ok(BadColumn(e))
      case Ok(data) =>
        var (r, changed) := PrefixesOutcome(data, Mappings(DefaultPrefixes, raws).value, force);
        status == Ok(if changed then Updated(r) else AlreadySet)
    ensures row != null ==>
      row.data == if status.Ok? && status.value.Updated? && !dryRun then ObjectColumn(status.value.data) else old(row.data)
  {
    var parsed := ParseMappings(DefaultPrefixes, raws);
    if parsed.Err? {
      return Err(parsed.error);
    }
    if row == null {
      return Ok(NoRow);
    }
    var coerced := CoerceJsonObject(row.data, false);
    if coerced.Err? {
      return Ok(BadColumn(coerced.error));
    }
    var doc := new Doc(coerced.value);
    var changed := EnsureOpenAIPrefixes(doc, parsed.value, force);
    if !changed {
      return Ok(AlreadySet);
    }
    status := Ok(Updated(doc.data));
    if !dryRun {
      row.data := ObjectColumn(doc.data);
    }
  }
}
