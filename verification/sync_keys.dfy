/**
 * `sync_openai_provider_keys_from_env.py`: copies the provider keys named in
 * the environment (`OPENAI_API_BASE_URLS` and `OPENAI_API_KEYS`, both
 * `;`-separated) into the config's `openai.api_keys`, position by position
 * against `openai.api_base_urls`, and optionally appends the env URLs the
 * config does not list yet.
 */
module SyncProviderKeys {
  import opened Wrappers
  import opened PyText
  import opened JsonValue
  import opened PyJson
  import opened ConfigStore

  // ---------------------------------------------------------------------
  // Text helpers.
  // ---------------------------------------------------------------------

  /** `_normalize_base_url`: trimmed, then trailing slashes dropped. */
  function NormalizeBaseUrl(url: string): (r: string)
    ensures r == [] || (!IsSpace(r[0]) && r[|r| - 1] != '/')
  {
    RStripChar(Strip(url), '/')
  }

  /** A normalised URL that does not end in whitespace normalises to itself. */
  lemma NormalizeStable(url: string)
    requires var r := NormalizeBaseUrl(url); r == [] || !IsSpace(r[|r| - 1])
    ensures NormalizeBaseUrl(NormalizeBaseUrl(url)) == NormalizeBaseUrl(url)
  {
    StripNoEdgeSpace(NormalizeBaseUrl(url));
  }

  /** Normalising is not idempotent: whitespace in front of a trailing slash survives one pass only. */
  lemma NormalizeNotIdempotent()
    ensures NormalizeBaseUrl("x /") == "x "
    ensures NormalizeBaseUrl("x ") == "x"
  {
    StripNoEdgeSpace("x /");
    assert RStripChar("x /", '/') == RStripChar("x ", '/');
    assert TrimStart("x ") == "x ";
    assert TrimEnd("x ") == TrimEnd("x") == "x";
  }

  /** `_parse_semicolon_list`: the trimmed, non-blank `;`-separated pieces, in order. */
  function ParseSemicolonList(raw: string): seq<string> {
    Pieces(raw, ';')
  }

  /** Every piece is non-empty, trimmed, and free of `;`. */
  lemma ParseSemicolonPieces(raw: string)
    ensures forall k :: 0 <= k < |ParseSemicolonList(raw)| ==>
      var p := ParseSemicolonList(raw)[k];
      p != "" && Strip(p) == p && ';' !in p
  {
    PiecesShape(raw, ';');
  }

  /** Pieces joined with `;` read back as themselves. */
  lemma ParseSemicolonJoin(xs: seq<string>)
    requires forall k :: 0 <= k < |xs| ==> xs[k] != "" && Strip(xs[k]) == xs[k] && ';' !in xs[k]
    ensures ParseSemicolonList(Join(xs, ';')) == xs
  {
    PiecesJoin(xs, ';');
  }

  // ---------------------------------------------------------------------
  // The env pairing.
  // ---------------------------------------------------------------------

  /** `[""] * n`. */
  function Blanks(n: nat): (r: seq<string>)
    ensures |r| == n && forall k :: 0 <= k < n ==> r[k] == ""
  {
    seq(n, _ => "")
  }

  /** `keys += [""] * (n - len(keys))` when `keys` is the shorter. */
  function PadKeys(keys: seq<string>, n: nat): (r: seq<string>)
    ensures |r| == if |keys| < n then n else |keys|
    ensures r[..|keys|] == keys && forall k :: |keys| <= k < |r| ==> r[k] == ""
  {
    if |keys| < n then keys + Blanks(n - |keys|) else keys
  }

  /** `zip(urls, keys)` into a dict, keeping the pairs whose URL and key are both non-empty. */
  function EnvMap(urls: seq<string>, keys: seq<string>): map<string, string>
    requires |urls| <= |keys|
  {
    if urls == [] then map[]
    else
      var n := |urls| - 1;
      var m := EnvMap(urls[..n], keys);
      if urls[n] != "" && keys[n] != "" then m[urls[n] := keys[n]] else m
  }

  /** The env URLs, each normalised. */
  function EnvUrls(raw: string): (r: seq<string>)
    ensures |r| == |ParseSemicolonList(raw)|
    ensures forall i :: 0 <= i < |r| ==> r[i] == NormalizeBaseUrl(ParseSemicolonList(raw)[i])
  {
    var ps := ParseSemicolonList(raw);
    seq(|ps|, i requires 0 <= i < |ps| => NormalizeBaseUrl(ps[i]))
  }

  /** The map `main` builds from the two variables. */
  function EnvMapping(rawUrls: string, rawKeys: string): map<string, string> {
    var urls := EnvUrls(rawUrls);
    EnvMap(urls, PadKeys(ParseSemicolonList(rawKeys), |urls|))
  }

  /** The pairing loop. */
  method PairEnv(urls: seq<string>, keys: seq<string>) returns (m: map<string, string>)
    requires |urls| <= |keys|
    ensures m == EnvMap(urls, keys)
  {
    m := map[];
    for i := 0 to |urls|
      invariant m == EnvMap(urls[..i], keys)
    {
      assert urls[..i + 1][..i] == urls[..i];
      if urls[i] != "" && keys[i] != "" {
        m := m[urls[i] := keys[i]];
      }
    }
    assert urls[..|urls|] == urls;
  }

  /** Every entry pairs a non-empty URL with a non-empty key from the same position. */
  lemma {:induction false} EnvMapFrom(urls: seq<string>, keys: seq<string>, u: string)
    requires |urls| <= |keys| && u in EnvMap(urls, keys)
    ensures u != "" && EnvMap(urls, keys)[u] != ""
    ensures exists i :: 0 <= i < |urls| && urls[i] == u && keys[i] == EnvMap(urls, keys)[u]
  {
    var n := |urls| - 1;
    if urls[n] == u && u != "" && keys[n] != "" {
      assert urls[n] == u && keys[n] == EnvMap(urls, keys)[u];
    } else {
      EnvMapFrom(urls[..n], keys, u);
      var i :| 0 <= i < n && urls[..n][i] == u && keys[i] == EnvMap(urls[..n], keys)[u];
      assert urls[i] == u;
    }
  }

  /** A URL takes the key of its last non-empty pairing: a later duplicate wins. */
  lemma {:induction false} EnvMapLastWins(urls: seq<string>, keys: seq<string>, i: nat)
    requires |urls| <= |keys| && i < |urls| && urls[i] != "" && keys[i] != ""
    requires forall j :: i < j < |urls| && urls[j] == urls[i] ==> keys[j] == ""
    ensures urls[i] in EnvMap(urls, keys) && EnvMap(urls, keys)[urls[i]] == keys[i]
  {
    var n := |urls| - 1;
    if i < n {
      assert urls[..n][i] == urls[i];
      forall j | i < j < n && urls[..n][j] == urls[..n][i] ensures keys[j] == "" {
        assert urls[..n][j] == urls[j];
      }
      EnvMapLastWins(urls[..n], keys, i);
    }
  }

  // ---------------------------------------------------------------------
  // The stored lists.
  // ---------------------------------------------------------------------

  /** `openai.get(key) or []`. */
  function ListOrEmpty(openai: Object, key: string): Json {
    OrElse(PyGet(openai, key), JArr([]))
  }

  /** The stored URLs, each normalised. */
  function DbUrls(raw: Json): (r: seq<string>)
    requires StringList(raw)
    ensures |r| == |raw.items| && forall i :: 0 <= i < |r| ==> r[i] == NormalizeBaseUrl(raw.items[i].s)
  {
    seq(|raw.items|, i requires 0 <= i < |raw.items| => NormalizeBaseUrl(raw.items[i].s))
  }

  /** `[str(k) for k in raw]` for a list, and no keys for anything else. */
  function DbKeys(raw: Json, containerStr: Json -> string): (r: seq<string>)
    ensures raw.JArr? ==> |r| == |raw.items| && forall i :: 0 <= i < |r| ==> r[i] == PyStr(raw.items[i], containerStr)
    ensures !raw.JArr? ==> r == []
  {
    if raw.JArr? then seq(|raw.items|, i requires 0 <= i < |raw.items| => PyStr(raw.items[i], containerStr)) else []
  }

  /** The keys padded with `""` or cut, so that there is one per URL. */
  function Align(keys: seq<string>, n: nat): (r: seq<string>)
    ensures |r| == n
    ensures forall k :: 0 <= k < n ==> r[k] == if k < |keys| then keys[k] else ""
  {
    if |keys| < n then PadKeys(keys, n) else keys[..n]
  }

  // ---------------------------------------------------------------------
  // The merge.
  // ---------------------------------------------------------------------

  /** The env key for `url`, if the env names a non-empty one. */
  predicate HasEnvKey(env: map<string, string>, url: string) {
    url in env && env[url] != ""
  }

  /** The update pass: a position whose URL has an env key holds that key; the others keep theirs. */
  function UpdatedKeys(urls: seq<string>, keys: seq<string>, env: map<string, string>): (r: seq<string>)
    requires |keys| == |urls|
  {
    seq(|keys|, i requires 0 <= i < |keys| => if HasEnvKey(env, urls[i]) then env[urls[i]] else keys[i])
  }

  /** `sorted(env.items())`. */
  function EnvItems(env: map<string, string>): (r: seq<(string, string)>)
    ensures forall i :: 0 <= i < |r| ==> r[i].0 in env && r[i].1 == env[r[i].0]
  {
    var ks := SortedKeys(env.Keys);
    seq(|ks|, i requires 0 <= i < |ks| => (ks[i], env[ks[i]]))
  }

  /** The items whose URL is not in `present`, in their order. */
  function MissingItems(items: seq<(string, string)>, present: set<string>): seq<(string, string)> {
    if items == [] then []
    else
      var n := |items| - 1;
      MissingItems(items[..n], present) + (if items[n].0 in present then [] else [items[n]])
  }

  function Firsts(ps: seq<(string, string)>): (r: seq<string>)
    ensures |r| == |ps| && forall i :: 0 <= i < |ps| ==> r[i] == ps[i].0
  {
    seq(|ps|, i requires 0 <= i < |ps| => ps[i].0)
  }

  function Seconds(ps: seq<(string, string)>): (r: seq<string>)
    ensures |r| == |ps| && forall i :: 0 <= i < |ps| ==> r[i] == ps[i].1
  {
    seq(|ps|, i requires 0 <= i < |ps| => ps[i].1)
  }

  /** The lists after the update pass and, with `appendMissing`, the appended env URLs. */
  datatype Merged = Merged(urls: seq<string>, keys: seq<string>, changed: bool)

  function Merge(urls: seq<string>, keys: seq<string>, env: map<string, string>, appendMissing: bool): Merged
    requires |keys| == |urls|
  {
    var updated := UpdatedKeys(urls, keys, env);
    var extra := if appendMissing then MissingItems(EnvItems(env), set u | u in urls) else [];
    Merged(urls + Firsts(extra), updated + Seconds(extra), updated != keys || extra != [])
  }

  /** The update loop over the stored positions. */
  method UpdateKeys(urls: seq<string>, keys: seq<string>, env: map<string, string>)
    returns (r: seq<string>, changed: bool)
    requires |keys| == |urls|
    ensures r == UpdatedKeys(urls, keys, env)
    ensures changed <==> r != keys
  {
    r, changed := keys, false;
    for i := 0 to |urls|
      invariant |r| == |keys|
      invariant forall k :: 0 <= k < i ==> r[k] == UpdatedKeys(urls, keys, env)[k]
      invariant forall k :: i <= k < |r| ==> r[k] == keys[k]
      invariant changed <==> r != keys
    {
      if !HasEnvKey(env, urls[i]) {
        continue;
      }
      var envKey := env[urls[i]];
      if r[i] == envKey {
        continue;
      }
      r := r[i := envKey];
      changed := true;
    }
  }

  /** The append loop over the sorted env items. */
  method AppendMissing(urls: seq<string>, keys: seq<string>, items: seq<(string, string)>, present: set<string>)
    returns (urls2: seq<string>, keys2: seq<string>, appended: bool)
    ensures urls2 == urls + Firsts(MissingItems(items, present))
    ensures keys2 == keys + Seconds(MissingItems(items, present))
    ensures appended <==> MissingItems(items, present) != []
  {
    urls2, keys2, appended := urls, keys, false;
    for i := 0 to |items|
      invariant urls2 == urls + Firsts(MissingItems(items[..i], present))
      invariant keys2 == keys + Seconds(MissingItems(items[..i], present))
      invariant appended <==> MissingItems(items[..i], present) != []
    {
      var prior := MissingItems(items[..i], present);
      assert items[..i + 1][..i] == items[..i];
      if items[i].0 in present {
        assert MissingItems(items[..i + 1], present) == prior + [];
        continue;
      }
      assert MissingItems(items[..i + 1], present) == prior + [items[i]];
      assert Firsts(prior + [items[i]]) == Firsts(prior) + [items[i].0];
      assert Seconds(prior + [items[i]]) == Seconds(prior) + [items[i].1];
      urls2 := urls2 + [items[i].0];
      keys2 := keys2 + [items[i].1];
      appended := true;
    }
    assert items[..|items|] == items;
  }

  // ---------------------------------------------------------------------
  // What the merge promises.
  // ---------------------------------------------------------------------

  /** The missing items are exactly the items whose URL is absent, kept in order. */
  lemma {:induction false} MissingItemsExact(items: seq<(string, string)>, present: set<string>)
    ensures forall p :: p in MissingItems(items, present) <==> p in items && p.0 !in present
  {
    if items != [] {
      var n := |items| - 1;
      MissingItemsExact(items[..n], present);
      assert items == items[..n] + [items[n]];
    }
  }

  /** One list per position: the merged URLs and keys stay the same length. */
  lemma MergeAligned(urls: seq<string>, keys: seq<string>, env: map<string, string>, appendMissing: bool)
    requires |keys| == |urls|
    ensures |Merge(urls, keys, env, appendMissing).urls| == |Merge(urls, keys, env, appendMissing).keys|
  {
  }

  /** The stored URLs keep their positions; without `appendMissing` nothing is added. */
  lemma MergeKeepsUrls(urls: seq<string>, keys: seq<string>, env: map<string, string>, appendMissing: bool)
    requires |keys| == |urls|
    ensures Merge(urls, keys, env, appendMissing).urls[..|urls|] == urls
    ensures !appendMissing ==> Merge(urls, keys, env, appendMissing).urls == urls
    ensures !appendMissing ==> |Merge(urls, keys, env, appendMissing).keys| == |keys|
  {
    var r := Merge(urls, keys, env, appendMissing);
    assert r.urls[..|urls|] == urls;
  }

  /** After the merge, every listed URL the env names holds the env key; the other stored positions keep theirs. */
  lemma MergeSynced(urls: seq<string>, keys: seq<string>, env: map<string, string>, appendMissing: bool)
    requires |keys| == |urls|
    ensures var r := Merge(urls, keys, env, appendMissing);
      forall i :: 0 <= i < |r.urls| && HasEnvKey(env, r.urls[i]) ==> r.keys[i] == env[r.urls[i]]
    ensures var r := Merge(urls, keys, env, appendMissing);
      forall i :: 0 <= i < |urls| && !HasEnvKey(env, urls[i]) ==> r.keys[i] == keys[i]
  {
    var r := Merge(urls, keys, env, appendMissing);
    var extra := if appendMissing then MissingItems(EnvItems(env), set u | u in urls) else [];
    if appendMissing {
      MissingItemsExact(EnvItems(env), set u | u in urls);
    }
    forall i | 0 <= i < |r.urls| && HasEnvKey(env, r.urls[i]) ensures r.keys[i] == env[r.urls[i]] {
      if i >= |urls| {
        var p := extra[i - |urls|];
        assert p in extra;
        assert r.urls[i] == p.0 && r.keys[i] == p.1;
      }
    }
  }

  /** Every env entry is among the sorted items. */
  lemma EnvItemsCover(env: map<string, string>, u: string)
    requires u in env
    ensures (u, env[u]) in EnvItems(env)
  {
    var ks := SortedKeys(env.Keys);
    var i :| 0 <= i < |ks| && ks[i] == u;
    assert EnvItems(env)[i] == (u, env[u]);
  }

  lemma FirstsHas(ps: seq<(string, string)>, p: (string, string))
    requires p in ps
    ensures p.0 in Firsts(ps)
  {
    var j :| 0 <= j < |ps| && ps[j] == p;
    assert Firsts(ps)[j] == p.0;
  }

  /** With `appendMissing`, every env URL ends up listed. */
  lemma MergeCovers(urls: seq<string>, keys: seq<string>, env: map<string, string>, u: string)
    requires |keys| == |urls| && u in env
    ensures u in Merge(urls, keys, env, true).urls
  {
    var present := set v | v in urls;
    var extra := MissingItems(EnvItems(env), present);
    if u !in urls {
      EnvItemsCover(env, u);
      MissingItemsExact(EnvItems(env), present);
      FirstsHas(extra, (u, env[u]));
      assert Merge(urls, keys, env, true).urls == urls + Firsts(extra);
    }
  }

  /** `changed` is true exactly when the lists differ from the stored ones. */
  lemma MergeChanged(urls: seq<string>, keys: seq<string>, env: map<string, string>, appendMissing: bool)
    requires |keys| == |urls|
    ensures var r := Merge(urls, keys, env, appendMissing);
      r.changed <==> r.urls != urls || r.keys != keys
  {
    var r := Merge(urls, keys, env, appendMissing);
    if r.urls == urls {
      assert |r.urls| == |urls|;
      assert r.keys == UpdatedKeys(urls, keys, env);
    } else {
      assert |r.urls| != |urls|;
    }
  }

  /** Keys already synced are left alone by the update pass. */
  lemma UpdatedSettled(urls: seq<string>, keys: seq<string>, env: map<string, string>)
    requires |keys| == |urls|
    requires forall i :: 0 <= i < |urls| && HasEnvKey(env, urls[i]) ==> keys[i] == env[urls[i]]
    ensures UpdatedKeys(urls, keys, env) == keys
  {
  }

  /** Nothing is missing when every item's URL is present. */
  lemma {:induction false} NoneMissing(items: seq<(string, string)>, present: set<string>)
    requires forall i :: 0 <= i < |items| ==> items[i].0 in present
    ensures MissingItems(items, present) == []
  {
    if items != [] {
      NoneMissing(items[..|items| - 1], present);
    }
  }

  /** Nothing is missing once every env URL is listed. */
  lemma NothingMissing(env: map<string, string>, present: set<string>)
    requires forall u :: u in env ==> u in present
    ensures MissingItems(EnvItems(env), present) == []
  {
    NoneMissing(EnvItems(env), present);
  }

  /** Merging again against the same env changes nothing. */
  lemma MergeSettles(urls: seq<string>, keys: seq<string>, env: map<string, string>, appendMissing: bool)
    requires |keys| == |urls|
    ensures var r := Merge(urls, keys, env, appendMissing);
      !Merge(r.urls, r.keys, env, appendMissing).changed
  {
    var r := Merge(urls, keys, env, appendMissing);
    MergeAligned(urls, keys, env, appendMissing);
    MergeSynced(urls, keys, env, appendMissing);
    UpdatedSettled(r.urls, r.keys, env);
    if appendMissing {
      var present := set u | u in r.urls;
      forall u | u in env ensures u in present {
        MergeCovers(urls, keys, env, u);
      }
      NothingMissing(env, present);
    }
  }

  // ---------------------------------------------------------------------
  // The whole run.
  // ---------------------------------------------------------------------

  /** How a run ends; `KeysUpdated` carries the edited config, written unless it is a dry run. */
  datatype SyncStatus =
    | NoEnvKeys
    | NoConfigRow
    | BadConfig(message: string)
    | NotStringList
    | AlreadySynced
    | KeysUpdated(data: Object)

  /** The lists `main` reads from the decoded config, if the URLs are a list of strings. */
  function StoredLists(openai: Object, containerStr: Json -> string): Option<(seq<string>, seq<string>)> {
    var rawUrls := ListOrEmpty(openai, "api_base_urls");
    if !StringList(rawUrls) then None
    else
      var urls := DbUrls(rawUrls);
      Some((urls, Align(DbKeys(ListOrEmpty(openai, "api_keys"), containerStr), |urls|)))
  }

  /** The edit on a decoded config. */
  function SyncObject(data: Object, env: map<string, string>, appendMissing: bool, containerStr: Json -> string): SyncStatus {
    var openai := Child(data, "openai");
    match StoredLists(openai, containerStr)
    case None => NotStringList
    case Some((urls, keys)) =>
      var r := Merge(urls, keys, env, appendMissing);
      if !r.changed then AlreadySynced
      else KeysUpdated(data["openai" := JObj(openai["api_base_urls" := Strs(r.urls)]["api_keys" := Strs(r.keys)])])
  }

  /** `main`, from the two environment variables and the newest config row (if any). */
  function SyncPlan(rawUrls: string, rawKeys: string, row: Option<Column>, appendMissing: bool,
                    containerStr: Json -> string): SyncStatus
  {
    var env := EnvMapping(rawUrls, rawKeys);
    if env == map[] then NoEnvKeys
    else if row.None? then NoConfigRow
    else
      match CoerceJsonObject(row.value, false)
      case Err(e) => BadConfig(e)
      case Ok(data) => SyncObject(data, env, appendMissing, containerStr)
  }

  /** The merge on the stored lists: the update loop, then the append loop. */
  method MergeLists(urls: seq<string>, keys: seq<string>, env: map<string, string>, appendMissing: bool)
    returns (r: Merged)
    requires |keys| == |urls|
    ensures r == Merge(urls, keys, env, appendMissing)
  {
    var keys1, changed := UpdateKeys(urls, keys, env);
    var urls2, keys2 := urls, keys1;
    if appendMissing {
      var appended;
      urls2, keys2, appended := AppendMissing(urls, keys1, EnvItems(env), set u | u in urls);
      changed := changed || appended;
    } else {
      assert urls2 == urls + Firsts([]) && keys2 == keys1 + Seconds([]);
    }
    r := Merged(urls2, keys2, changed);
  }

  /** The edit on the decoded config. */
  method SyncDecoded(data: Object, env: map<string, string>, appendMissing: bool, containerStr: Json -> string)
    returns (status: SyncStatus)
    ensures status == SyncObject(data, env, appendMissing, containerStr)
  {
    var openai := Child(data, "openai");
    var stored := StoredLists(openai, containerStr);
    if stored.None? {
      return NotStringList;
    }
    var (urls, keys) := stored.value;
    var r := MergeLists(urls, keys, env, appendMissing);
    if !r.changed {
      return AlreadySynced;
    }
    return KeysUpdated(data["openai" := JObj(openai["api_base_urls" := Strs(r.urls)]["api_keys" := Strs(r.keys)])]);
  }

  /** `main`'s body: the steps in order, writing the row only when something changed and it is not a dry run. */
  method SyncKeysFromEnv(row: Row?, rawUrls: string, rawKeys: string, appendMissing: bool, dryRun: bool,
                         containerStr: Json -> string)
    returns (status: SyncStatus)
    modifies row
    ensures status == SyncPlan(rawUrls, rawKeys, if row == null then None else Some(old(row.data)), appendMissing, containerStr)
    ensures row != null ==> row.data == if status.KeysUpdated? && !dryRun then ObjectColumn(status.data) else old(row.data)
  {
    var envUrls := EnvUrls(rawUrls);
    var env := PairEnv(envUrls, PadKeys(ParseSemicolonList(rawKeys), |envUrls|));
    if env == map[] {
      return NoEnvKeys;
    }
    if row == null {
      return NoConfigRow;
    }
    var coerced := CoerceJsonObject(row.data, false);
    if coerced.Err? {
      return BadConfig(coerced.error);
    }
    status := SyncDecoded(coerced.value, env, appendMissing, containerStr);
    if status.KeysUpdated? && !dryRun {
      row.data := ObjectColumn(status.data);
    }
  }

  /** Only `openai.api_base_urls` and `openai.api_keys` change. */
  lemma SyncFrame(data: Object, env: map<string, string>, appendMissing: bool, containerStr: Json -> string)
    requires SyncObject(data, env, appendMissing, containerStr).KeysUpdated?
    ensures var d := SyncObject(data, env, appendMissing, containerStr).data;
      && SameBut(d, data, "openai")
      && forall k :: k != "api_base_urls" && k != "api_keys" ==>
           (k in Child(d, "openai") <==> k in Child(data, "openai"))
           && (k in Child(data, "openai") ==> Child(d, "openai")[k] == Child(data, "openai")[k])
  {
  }

  /**
   * A second run against the same env finds nothing to do, provided the
   * written URLs are fixed points of the normalisation.
   */
  lemma SyncIdempotent(data: Object, env: map<string, string>, appendMissing: bool, containerStr: Json -> string)
    requires SyncObject(data, env, appendMissing, containerStr).KeysUpdated?
    requires var openai := Child(data, "openai");
      var (urls, keys) := StoredLists(openai, containerStr).value;
      var r := Merge(urls, keys, env, appendMissing);
      forall i :: 0 <= i < |r.urls| ==> NormalizeBaseUrl(r.urls[i]) == r.urls[i]
    ensures SyncObject(SyncObject(data, env, appendMissing, containerStr).data, env, appendMissing, containerStr)
      == AlreadySynced
  {
    var openai := Child(data, "openai");
    var (urls, keys) := StoredLists(openai, containerStr).value;
    var r := Merge(urls, keys, env, appendMissing);
    var d := SyncObject(data, env, appendMissing, containerStr).data;
    var openai2 := openai["api_base_urls" := Strs(r.urls)]["api_keys" := Strs(r.keys)];
    assert Child(d, "openai") == openai2;
    MergeAligned(urls, keys, env, appendMissing);
    ReadBack(openai, r.urls, r.keys, containerStr);
    MergeSettles(urls, keys, env, appendMissing);
  }

  /** Written lists of normalised URLs, one key each, read back as themselves. */
  lemma ReadBack(openai: Object, urls: seq<string>, keys: seq<string>, containerStr: Json -> string)
    requires |urls| == |keys| && forall i :: 0 <= i < |urls| ==> NormalizeBaseUrl(urls[i]) == urls[i]
    ensures StoredLists(openai["api_base_urls" := Strs(urls)]["api_keys" := Strs(keys)], containerStr) == Some((urls, keys))
  {
    var openai2 := openai["api_base_urls" := Strs(urls)]["api_keys" := Strs(keys)];
    assert ListOrEmpty(openai2, "api_base_urls") == Strs(urls);
    assert ListOrEmpty(openai2, "api_keys") == Strs(keys);
    assert DbUrls(Strs(urls)) == urls;
    assert DbKeys(Strs(keys), containerStr) == keys;
    assert Align(keys, |urls|) == keys;
  }
}
