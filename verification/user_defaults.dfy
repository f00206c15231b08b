/**
 * `ensure_user_default_models.py`: sets one user's own default models in
 * their settings: `ui.models` and `ui.pinnedModels`, each a list parsed from
 * a comma-separated argument, only when asked for and (without `--force`)
 * only when the current value is falsy.
 */
module UserDefaultModels {
  import opened Wrappers
  import opened PyText
  import opened JsonValue
  import opened ConfigStore

  /** `_parse_csv`: no argument gives `None`; otherwise the trimmed, non-blank comma-separated pieces, in order. */
  function ParseCsv(value: Option<string>): (r: Option<seq<string>>)
    ensures r.None? <==> value.None?
  {
    if value.None? then None else Some(Pieces(value.value, ','))
  }

  /** Each parsed model id is non-empty, trimmed and free of commas. */
  lemma ParseCsvPieces(value: string)
    ensures forall k :: 0 <= k < |ParseCsv(Some(value)).value| ==>
      var p := ParseCsv(Some(value)).value[k];
      p != "" && Strip(p) == p && ',' !in p
  {
    PiecesShape(value, ',');
  }

  /** Model ids joined with commas parse back to themselves. */
  lemma ParseCsvJoin(ids: seq<string>)
    requires forall k :: 0 <= k < |ids| ==> ids[k] != "" && Strip(ids[k]) == ids[k] && ',' !in ids[k]
    ensures ParseCsv(Some(Join(ids, ','))) == Some(ids)
  {
    PiecesJoin(ids, ',');
  }

  /** The value a target ends with: the requested list if the guarded write fired, else the old one. */
  function After(current: Json, value: Option<seq<string>>, force: bool): Json {
    if value.Some? && Overwrites(current, Strs(value.value), force) then Strs(value.value) else current
  }

  /** One optional target of the user's `ui` object. */
  function UiStep(ui: Object, key: string, value: Option<seq<string>>, force: bool): (Object, bool) {
    if value.None? then (ui, false) else SetIfUnset(ui, key, Strs(value.value), force)
  }

  /** `_ensure_user_defaults`: the settings after the edit, and the `changed` it returns. */
  function UserOutcome(settings: Object, models: Option<seq<string>>, pinnedModels: Option<seq<string>>,
                       force: bool): (Object, bool)
  {
    var (ui1, c1) := UiStep(Child(settings, "ui"), "models", models, force);
    var (ui2, c2) := UiStep(ui1, "pinnedModels", pinnedModels, force);
    (settings["ui" := JObj(ui2)], c1 || c2)
  }

  /** `_ensure_user_defaults`, editing the decoded settings in place. */
  method EnsureUserDefaults(doc: Doc, models: Option<seq<string>>, pinnedModels: Option<seq<string>>, force: bool)
    returns (changed: bool)
    modifies doc
    ensures (doc.data, changed) == UserOutcome(old(doc.data), models, pinnedModels, force)
  {
    ghost var settings0 := doc.data;
    changed := false;
    doc.data := EnsureDict(doc.data, "ui");
    var ui := Child(doc.data, "ui");
    assert ui == Child(settings0, "ui");
    if models.Some? {
      var current := PyGet(ui, "models");
      if force || !Truthy(current) {
        if current != Strs(models.value) {
          ui := ui["models" := Strs(models.value)];
          changed := true;
        }
      }
    }
    if pinnedModels.Some? {
      var current := PyGet(ui, "pinnedModels");
      if force || !Truthy(current) {
        if current != Strs(pinnedModels.value) {
          ui := ui["pinnedModels" := Strs(pinnedModels.value)];
          changed := true;
        }
      }
    }
    StoreAfterEnsure(settings0, "ui", JObj(ui));
    doc.data := doc.data["ui" := JObj(ui)];
  }

  /**
   * `main` after its argument checks: the user's row (if found), its settings
   * edited and written unless nothing changed or it is a dry run. A `NULL`
   * settings column reads as `{}`.
   */
  method RunUserDefaults(row: Row?, models: Option<string>, pinnedModels: Option<string>, force: bool, dryRun: bool)
    returns (status: RunStatus)
    modifies row
    ensures models.None? && pinnedModels.None? ==> status == NothingRequested
    ensures (models.Some? || pinnedModels.Some?) && row == null ==> status == NoRow
    ensures (models.Some? || pinnedModels.Some?) && row != null ==>
      match CoerceJsonObject(old(row.data), true)
      case Err(e) => status == BadColumn(e)
      case Ok(settings) =>
        var (r, changed) := UserOutcome(settings, ParseCsv(models), ParseCsv(pinnedModels), force);
        status == if changed then Updated(r) else AlreadySet
    ensures row != null ==> row.data == if status.Updated? && !dryRun then ObjectColumn(status.data) else old(row.data)
  {
    var ms := ParseCsv(models);
    var ps := ParseCsv(pinnedModels);
    if ms.None? && ps.None? {
      return NothingRequested;
    }
    if row == null {
      return NoRow;
    }
    var coerced := CoerceJsonObject(row.data, true);
    if coerced.Err? {
      return BadColumn(coerced.error);
    }
    var doc := new Doc(coerced.value);
    var changed := EnsureUserDefaults(doc, ms, ps, force);
    if !changed {
      return AlreadySet;
    }
    status := Updated(doc.data);
    if !dryRun {
      row.data := ObjectColumn(doc.data);
    }
  }

  // ---------------------------------------------------------------------
  // What the edit promises.
  // ---------------------------------------------------------------------

  /** The user's `ui.<key>` as the script reads it. */
  function UiValue(settings: Object, key: string): Json {
    PyGet(Child(settings, "ui"), key)
  }

  /**
   * Each target ends with the requested list exactly when it was asked for
   * and forced or falsy and different; otherwise it keeps its value.
   */
  lemma UserTargets(settings: Object, models: Option<seq<string>>, pinnedModels: Option<seq<string>>, force: bool)
    ensures var r := UserOutcome(settings, models, pinnedModels, force).0;
      && UiValue(r, "models") == After(UiValue(settings, "models"), models, force)
      && UiValue(r, "pinnedModels") == After(UiValue(settings, "pinnedModels"), pinnedModels, force)
  {
    var r := UserOutcome(settings, models, pinnedModels, force).0;
    var ui1 := UiStep(Child(settings, "ui"), "models", models, force).0;
    var ui2 := UiStep(ui1, "pinnedModels", pinnedModels, force).0;
    assert Child(r, "ui") == ui2;
  }

  /** `changed` is true exactly when one of the two guarded writes fired. */
  lemma UserChanged(settings: Object, models: Option<seq<string>>, pinnedModels: Option<seq<string>>, force: bool)
    ensures UserOutcome(settings, models, pinnedModels, force).1 <==>
      || (models.Some? && Overwrites(UiValue(settings, "models"), Strs(models.value), force))
      || (pinnedModels.Some? && Overwrites(UiValue(settings, "pinnedModels"), Strs(pinnedModels.value), force))
  {
    var ui1 := UiStep(Child(settings, "ui"), "models", models, force).0;
    assert PyGet(ui1, "pinnedModels") == UiValue(settings, "pinnedModels");
  }

  /** A second identical run returns false. */
  lemma UserIdempotent(settings: Object, models: Option<seq<string>>, pinnedModels: Option<seq<string>>, force: bool)
    ensures var r := UserOutcome(settings, models, pinnedModels, force).0;
      !UserOutcome(r, models, pinnedModels, force).1
  {
    var r := UserOutcome(settings, models, pinnedModels, force).0;
    UserTargets(settings, models, pinnedModels, force);
    UserChanged(r, models, pinnedModels, force);
  }

  /** Only `ui` changes in the settings, and in it only `models` and `pinnedModels`. */
  lemma UserFrame(settings: Object, models: Option<seq<string>>, pinnedModels: Option<seq<string>>, force: bool)
    ensures var r := UserOutcome(settings, models, pinnedModels, force).0;
      && SameBut(r, settings, "ui")
      && "ui" in r && r["ui"].JObj?
      && forall k :: k != "models" && k != "pinnedModels" ==>
           (k in Child(r, "ui") <==> k in Child(settings, "ui"))
           && (k in Child(settings, "ui") ==> Child(r, "ui")[k] == Child(settings, "ui")[k])
  {
    var r := UserOutcome(settings, models, pinnedModels, force).0;
    var ui1 := UiStep(Child(settings, "ui"), "models", models, force).0;
    var ui2 := UiStep(ui1, "pinnedModels", pinnedModels, force).0;
    assert Child(r, "ui") == ui2;
  }
}
