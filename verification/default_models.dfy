/**
 * `ensure_default_models.py`: sets the instance-wide default models in the
 * config row: `ui.default_models`, `ui.default_pinned_models` and
 * `task.model.external`, each only when asked for, and (without `--force`)
 * only when the current value is falsy.
 */
module DefaultModels {
  import opened Wrappers
  import opened JsonValue
  import opened ConfigStore

  /** The three values `main` may be asked to set; `None` leaves a target alone. */
  datatype Request = Request(defaultModel: Option<string>, pinnedModels: Option<string>, taskModelExternal: Option<string>)

  /** Whether any value was asked for (`main` skips the run otherwise). */
  predicate Requested(req: Request) {
    req.defaultModel.Some? || req.pinnedModels.Some? || req.taskModelExternal.Some?
  }

  /** The current `ui.<key>` as the script reads it; a non-object `ui` reads as empty. */
  function UiValue(data: Object, key: string): Json {
    PyGet(Child(data, "ui"), key)
  }

  /** The current `task.model.external` as the script reads it. */
  function TaskExternal(data: Object): Json {
    PyGet(Child(Child(data, "task"), "model"), "external")
  }

  /** One `ui` target: `_ensure_dict(config, "ui")`, then the guarded write. */
  function UiStep(data: Object, key: string, value: Option<string>, force: bool): (Object, bool) {
    if value.None? then (data, false)
    else
      var (ui, written) := SetIfUnset(Child(data, "ui"), key, JStr(value.value), force);
      (data["ui" := JObj(ui)], written)
  }

  /** The `task.model.external` target: two `_ensure_dict`s, then the guarded write. */
  function TaskStep(data: Object, value: Option<string>, force: bool): (Object, bool) {
    if value.None? then (data, false)
    else
      var task := Child(data, "task");
      var (model, written) := SetIfUnset(Child(task, "model"), "external", JStr(value.value), force);
      (data["task" := JObj(task["model" := JObj(model)])], written)
  }

  /** `_ensure_defaults`: the config after the three steps, and the `changed` it returns. */
  function DefaultsOutcome(data: Object, req: Request, force: bool): (Object, bool) {
    var (d1, c1) := UiStep(data, "default_models", req.defaultModel, force);
    var (d2, c2) := UiStep(d1, "default_pinned_models", req.pinnedModels, force);
    var (d3, c3) := TaskStep(d2, req.taskModelExternal, force);
    (d3, c1 || c2 || c3)
  }

  // ---------------------------------------------------------------------
  // The edit in place.
  // ---------------------------------------------------------------------

  /** One `ui` target, editing the decoded config. */
  method SetUiDefault(doc: Doc, key: string, value: string, force: bool) returns (changed: bool)
    modifies doc
    ensures (doc.data, changed) == UiStep(old(doc.data), key, Some(value), force)
  {
    ghost var data0 := doc.data;
    doc.data := EnsureDict(doc.data, "ui");
    var ui := Child(doc.data, "ui");
    assert ui == Child(data0, "ui");
    var current := PyGet(ui, key);
    changed := false;
    if force || !Truthy(current) {
      if current != JStr(value) {
        ui := ui[key := JStr(value)];
        changed := true;
      }
    }
    StoreAfterEnsure(data0, "ui", JObj(ui));
    doc.data := doc.data["ui" := JObj(ui)];
  }

  /** The `task.model.external` target, editing the decoded config. */
  method SetTaskExternal(doc: Doc, value: string, force: bool) returns (changed: bool)
    modifies doc
    ensures (doc.data, changed) == TaskStep(old(doc.data), Some(value), force)
  {
    ghost var data0 := doc.data;
    doc.data := EnsureDict(doc.data, "task");
    var task := Child(doc.data, "task");
    assert task == Child(data0, "task");
    task := EnsureDict(task, "model");
    var model := Child(task, "model");
    assert model == Child(Child(data0, "task"), "model");
    var current := PyGet(model, "external");
    changed := false;
    if force || !Truthy(current) {
      if current != JStr(value) {
        model := model["external" := JStr(value)];
        changed := true;
      }
    }
    StoreAfterEnsure(Child(data0, "task"), "model", JObj(model));
    StoreAfterEnsure(data0, "task", JObj(task["model" := JObj(model)]));
    doc.data := doc.data["task" := JObj(task["model" := JObj(model)])];
  }

  /** `_ensure_defaults`, editing the decoded config in place. */
  method EnsureDefaults(doc: Doc, req: Request, force: bool) returns (changed: bool)
    modifies doc
    ensures (doc.data, changed) == DefaultsOutcome(old(doc.data), req, force)
  {
    changed := false;
    if req.defaultModel.Some? {
      changed := SetUiDefault(doc, "default_models", req.defaultModel.value, force);
    }
    if req.pinnedModels.Some? {
      var c := SetUiDefault(doc, "default_pinned_models", req.pinnedModels.value, force);
      changed := changed || c;
    }
    if req.taskModelExternal.Some? {
      var c := SetTaskExternal(doc, req.taskModelExternal.value, force);
      changed := changed || c;
    }
  }

  /** `main` after its argument checks: the newest config row (if any), edited and written unless nothing changed or it is a dry run. */
  method RunDefaults(row: Row?, req: Request, force: bool, dryRun: bool) returns (status: RunStatus)
    modifies row
    ensures !Requested(req) ==> status == NothingRequested
    ensures Requested(req) && row == null ==> status == NoRow
    ensures Requested(req) && row != null ==>
      match CoerceJsonObject(old(row.data), false)
      case Err(e) => status == BadColumn(e)
      case Ok(data) =>
        var (r, changed) := DefaultsOutcome(data, req, force);
        status == if changed then Updated(r) else AlreadySet
    ensures row != null ==> row.data == if status.Updated? && !dryRun then ObjectColumn(status.data) else old(row.data)
  {
    if !Requested(req) {
      return NothingRequested;
    }
    if row == null {
      return NoRow;
    }
    var coerced := CoerceJsonObject(row.data, false);
    if coerced.Err? {
      return BadColumn(coerced.error);
    }
    var doc := new Doc(coerced.value);
    var changed := EnsureDefaults(doc, req, force);
    if !changed {
      return AlreadySet;
    }
    status := Updated(doc.data);
    if !dryRun {
      row.data := ObjectColumn(doc.data);
    }
  }

  // ---------------------------------------------------------------------
  // What the edit promises.
  // ---------------------------------------------------------------------

  /** The value a target ends with: the requested one if the guarded write fired, else the old one. */
  function After(current: Json, value: Option<string>, force: bool): Json {
    if value.Some? && Overwrites(current, JStr(value.value), force) then JStr(value.value) else current
  }

  /** A `ui` step sets its own key as guarded and leaves the other `ui` key and `task.model.external` alone. */
  lemma UiStepReads(data: Object, key: string, other: string, value: Option<string>, force: bool)
    requires key != other
    ensures var d := UiStep(data, key, value, force).0;
      && UiValue(d, key) == After(UiValue(data, key), value, force)
      && UiValue(d, other) == UiValue(data, other)
      && TaskExternal(d) == TaskExternal(data)
  {
    if value.Some? {
      var d := UiStep(data, key, value, force).0;
      assert Child(d, "task") == Child(data, "task");
    }
  }

  /** The task step sets `task.model.external` as guarded and leaves `ui` alone. */
  lemma TaskStepReads(data: Object, value: Option<string>, force: bool)
    ensures var d := TaskStep(data, value, force).0;
      && TaskExternal(d) == After(TaskExternal(data), value, force)
      && Child(d, "ui") == Child(data, "ui")
  {
    if value.Some? {
      var d := TaskStep(data, value, force).0;
      var task := Child(data, "task");
      var model := SetIfUnset(Child(task, "model"), "external", JStr(value.value), force).0;
      assert Child(d, "task") == task["model" := JObj(model)];
      assert Child(Child(d, "task"), "model") == model;
    }
  }

  /**
   * Each target ends with the requested value exactly when it was asked for
   * and forced or falsy and different; otherwise it keeps its value. So
   * `None` leaves a target untouched and, without force, a truthy value is
   * never overwritten.
   */
  lemma DefaultsTargets(data: Object, req: Request, force: bool)
    ensures var r := DefaultsOutcome(data, req, force).0;
      && UiValue(r, "default_models") == After(UiValue(data, "default_models"), req.defaultModel, force)
      && UiValue(r, "default_pinned_models") == After(UiValue(data, "default_pinned_models"), req.pinnedModels, force)
      && TaskExternal(r) == After(TaskExternal(data), req.taskModelExternal, force)
  {
    var d1 := UiStep(data, "default_models", req.defaultModel, force).0;
    var d2 := UiStep(d1, "default_pinned_models", req.pinnedModels, force).0;
    UiStepReads(data, "default_models", "default_pinned_models", req.defaultModel, force);
    UiStepReads(d1, "default_pinned_models", "default_models", req.pinnedModels, force);
    TaskStepReads(d2, req.taskModelExternal, force);
  }

  /** `changed` is true exactly when some target's guarded write fired. */
  lemma DefaultsChanged(data: Object, req: Request, force: bool)
    ensures DefaultsOutcome(data, req, force).1 <==>
      || (req.defaultModel.Some? && Overwrites(UiValue(data, "default_models"), JStr(req.defaultModel.value), force))
      || (req.pinnedModels.Some? && Overwrites(UiValue(data, "default_pinned_models"), JStr(req.pinnedModels.value), force))
      || (req.taskModelExternal.Some? && Overwrites(TaskExternal(data), JStr(req.taskModelExternal.value), force))
  {
    var d1 := UiStep(data, "default_models", req.defaultModel, force).0;
    var d2 := UiStep(d1, "default_pinned_models", req.pinnedModels, force).0;
    UiStepReads(data, "default_models", "default_pinned_models", req.defaultModel, force);
    UiStepReads(d1, "default_pinned_models", "default_models", req.pinnedModels, force);
  }

  /** A value the guarded write leaves or sets is one it will not write again. */
  lemma AfterSettles(current: Json, value: Option<string>, force: bool)
    requires value.Some?
    ensures !Overwrites(After(current, value, force), JStr(value.value), force)
  {
  }

  /** A second identical run returns false. */
  lemma DefaultsIdempotent(data: Object, req: Request, force: bool)
    ensures var r := DefaultsOutcome(data, req, force).0;
      !DefaultsOutcome(r, req, force).1
  {
    var r := DefaultsOutcome(data, req, force).0;
    DefaultsTargets(data, req, force);
    DefaultsChanged(r, req, force);
    if req.defaultModel.Some? { AfterSettles(UiValue(data, "default_models"), req.defaultModel, force); }
    if req.pinnedModels.Some? { AfterSettles(UiValue(data, "default_pinned_models"), req.pinnedModels, force); }
    if req.taskModelExternal.Some? { AfterSettles(TaskExternal(data), req.taskModelExternal, force); }
  }

  /** Nothing asked for, nothing done. */
  lemma NothingRequestedKeeps(data: Object, force: bool)
    ensures DefaultsOutcome(data, Request(None, None, None), force) == (data, false)
  {
  }

  /**
   * Only `ui` and `task` can change at the top level; and a `ui` or `task`
   * that was not an object is replaced by one as soon as a value for it is
   * asked for, even when nothing is written.
   */
  lemma DefaultsFrame(data: Object, req: Request, force: bool)
    ensures var r := DefaultsOutcome(data, req, force).0;
      forall k :: k != "ui" && k != "task" ==> (k in r <==> k in data) && (k in data ==> r[k] == data[k])
    ensures var r := DefaultsOutcome(data, req, force).0;
      (req.defaultModel.Some? || req.pinnedModels.Some?) ==> "ui" in r && r["ui"].JObj?
    ensures var r := DefaultsOutcome(data, req, force).0;
      req.taskModelExternal.Some? ==> "task" in r && r["task"].JObj? && "model" in r["task"].fields && r["task"].fields["model"].JObj?
  {
  }

  /** Inside `ui` only `default_models` and `default_pinned_models` can change. */
  lemma DefaultsUiFrame(data: Object, req: Request, force: bool)
    ensures var r := DefaultsOutcome(data, req, force).0;
      forall k :: k != "default_models" && k != "default_pinned_models" ==>
        (k in Child(r, "ui") <==> k in Child(data, "ui"))
        && (k in Child(data, "ui") ==> Child(r, "ui")[k] == Child(data, "ui")[k])
  {
    var d1 := UiStep(data, "default_models", req.defaultModel, force).0;
    var d2 := UiStep(d1, "default_pinned_models", req.pinnedModels, force).0;
    UiStepFrame(data, "default_models", req.defaultModel, force);
    UiStepFrame(d1, "default_pinned_models", req.pinnedModels, force);
    TaskStepKeepsUi(d2, req.taskModelExternal, force);
  }

  /** Inside `task` only `model` can change, and inside `task.model` only `external`. */
  lemma DefaultsTaskFrame(data: Object, req: Request, force: bool)
    ensures var r := DefaultsOutcome(data, req, force).0;
      forall k :: k != "model" ==>
        (k in Child(r, "task") <==> k in Child(data, "task"))
        && (k in Child(data, "task") ==> Child(r, "task")[k] == Child(data, "task")[k])
    ensures var r := DefaultsOutcome(data, req, force).0;
      forall k :: k != "external" ==>
        (k in Child(Child(r, "task"), "model") <==> k in Child(Child(data, "task"), "model"))
        && (k in Child(Child(data, "task"), "model") ==>
              Child(Child(r, "task"), "model")[k] == Child(Child(data, "task"), "model")[k])
  {
    var d1 := UiStep(data, "default_models", req.defaultModel, force).0;
    var d2 := UiStep(d1, "default_pinned_models", req.pinnedModels, force).0;
    assert Child(d1, "task") == Child(data, "task");
    assert Child(d2, "task") == Child(data, "task");
    TaskStepFrame(d2, req.taskModelExternal, force);
  }

  /** A `ui` write changes only its key inside `ui`. */
  lemma UiStepFrame(data: Object, key: string, value: Option<string>, force: bool)
    ensures var r := UiStep(data, key, value, force).0;
      forall k :: k != key ==>
        (k in Child(r, "ui") <==> k in Child(data, "ui"))
        && (k in Child(data, "ui") ==> Child(r, "ui")[k] == Child(data, "ui")[k])
  {
  }

  /** The `task.model.external` write leaves `ui` alone. */
  lemma TaskStepKeepsUi(data: Object, value: Option<string>, force: bool)
    ensures Child(TaskStep(data, value, force).0, "ui") == Child(data, "ui")
  {
  }

  /** The `task.model.external` write changes only `model` inside `task`, and only `external` inside it. */
  lemma TaskStepFrame(data: Object, value: Option<string>, force: bool)
    ensures var r := TaskStep(data, value, force).0;
      forall k :: k != "model" ==>
        (k in Child(r, "task") <==> k in Child(data, "task"))
        && (k in Child(data, "task") ==> Child(r, "task")[k] == Child(data, "task")[k])
    ensures var r := TaskStep(data, value, force).0;
      forall k :: k != "external" ==>
        (k in Child(Child(r, "task"), "model") <==> k in Child(Child(data, "task"), "model"))
        && (k in Child(Child(data, "task"), "model") ==>
              Child(Child(r, "task"), "model")[k] == Child(Child(data, "task"), "model")[k])
  {
  }
}
