/**
 * What the deploy scripts share: a JSON object held in one database column
 * (the config row's `data`, a user's `settings`), read into memory, edited
 * in place and written back, and the two helpers every script carries:
 * coercing the stored column to an object and `_ensure_dict`.
 */
module ConfigStore {
  import opened Wrappers
  import opened PyText
  import opened JsonValue
  import opened JsonReader
  import opened JsonRoundTrip

  /** A JSON object: the stored column, or an object nested in it. */
  type Object = map<string, Json>

  /** `x` and `y` agree on every key except `key`. */
  ghost predicate SameBut(x: Object, y: Object, key: string) {
    forall k :: k != key ==> (k in x <==> k in y) && (k in x ==> x[k] == y[k])
  }

  /** `_ensure_dict`'s result: the object stored under `key`, or a fresh empty one. */
  function Child(parent: Object, key: string): Object {
    if key in parent && parent[key].JObj? then parent[key].fields else map[]
  }

  /**
   * `_ensure_dict(parent, key)` seen from the parent: an object already
   * there stays, anything else (a missing key, `None`, a list, a string)
   * is replaced by `{}`.
   */
  function EnsureDict(parent: Object, key: string): (r: Object)
    ensures key in r && r[key] == JObj(Child(parent, key)) && SameBut(r, parent, key)
    ensures key in parent && parent[key].JObj? ==> r == parent
  {
    if key in parent && parent[key].JObj? then parent else parent[key := JObj(map[])]
  }

  /** Storing into the parent after `_ensure_dict` is storing into the original parent. */
  lemma StoreAfterEnsure(parent: Object, key: string, v: Json)
    ensures EnsureDict(parent, key)[key := v] == parent[key := v]
  {
  }

  /** The stored column's value: an object, a JSON text, `NULL`, or something else. */
  datatype Column = ObjectColumn(fields: Object) | TextColumn(text: string) | NullColumn | OtherColumn

  /**
   * `_coerce_json_object`: an object as it is, a text that decodes to an
   * object, and (where `nullIsEmpty`, as for user settings) `NULL` as `{}`;
   * anything else raises.
   */
  function CoerceJsonObject(value: Column, nullIsEmpty: bool): (r: Result<Object, string>)
    ensures value.ObjectColumn? ==> r == Ok(value.fields)
    ensures value.NullColumn? ==> (r.Ok? <==> nullIsEmpty) && (r.Ok? ==> r.value == map[])
    ensures value.TextColumn? ==> (r.Ok? <==> Loads(value.text).Some? && Loads(value.text).value.JObj?)
    ensures value.OtherColumn? ==> r.Err?
  {
    match value
    case ObjectColumn(fields) => Ok(fields)
    case NullColumn => if nullIsEmpty then Ok(map[]) else Err("Expected JSON object, got NoneType")
    case TextColumn(text) =>
      (match Loads(text)
       case Some(JObj(fields)) => Ok(fields)
       case _ => Err("Expected JSON object"))
    case OtherColumn => Err("Expected JSON object")
  }

  /** An object stored as its compact JSON text is read back as that object. */
  lemma CoerceStoredText(m: Object, nullIsEmpty: bool)
    requires Valid(JObj(m))
    ensures CoerceJsonObject(TextColumn(Serialize(JObj(m))), nullIsEmpty) == Ok(m)
  {
    LoadsSerialize(JObj(m));
  }

  /** A database row's JSON column (the config's `data`, a user's `settings`), which a script reads and may write back. */
  class Row {
    var data: Column

    constructor (data: Column)
      ensures this.data == data
    {
      this.data := data;
    }
  }

  /** A list whose every item is a string. */
  predicate StringList(j: Json) {
    j.JArr? && forall i :: 0 <= i < |j.items| ==> j.items[i].JStr?
  }

  /** A list of strings as JSON. */
  function Strs(xs: seq<string>): (r: Json)
    ensures StringList(r) && |r.items| == |xs| && forall i :: 0 <= i < |xs| ==> r.items[i] == JStr(xs[i])
  {
    JArr(seq(|xs|, i requires 0 <= i < |xs| => JStr(xs[i])))
  }

  /** `_ensure_dict` as a store: the key holds its object, or a fresh one. */
  lemma EnsureDictStore(parent: Object, key: string)
    ensures EnsureDict(parent, key) == parent[key := JObj(Child(parent, key))]
  {
  }

  /**
   * The write every default-setting script makes: the value goes in when
   * forced or when the current one is falsy, and only if it differs.
   */
  predicate Overwrites(current: Json, value: Json, force: bool) {
    (force || !Truthy(current)) && current != value
  }

  /** One such write on `obj[key]`, and whether it was made. */
  function SetIfUnset(obj: Object, key: string, value: Json, force: bool): (Object, bool) {
    if Overwrites(PyGet(obj, key), value, force) then (obj[key := value], true) else (obj, false)
  }

  /** After the write the key holds the value or an unforced truthy value; so the same write again does nothing. */
  lemma SetIfUnsetSettles(obj: Object, key: string, value: Json, force: bool)
    ensures var (r, _) := SetIfUnset(obj, key, value, force);
      SetIfUnset(r, key, value, force) == (r, false)
  {
  }

  /** Without force a truthy value is never replaced, and a falsy one always is, unless it already is the value. */
  lemma SetIfUnsetRespects(obj: Object, key: string, value: Json)
    ensures Truthy(PyGet(obj, key)) ==> SetIfUnset(obj, key, value, false) == (obj, false)
    ensures !Truthy(PyGet(obj, key)) && PyGet(obj, key) != value ==> SetIfUnset(obj, key, value, false) == (obj[key := value], true)
  {
  }

  /** How a run of a default-setting script ends; `Updated` carries the edited object, written back unless it is a dry run. */
  datatype RunStatus =
    | NothingRequested
    | NoRow
    | BadColumn(message: string)
    | AlreadySet
    | Updated(data: Object)

  /** A JSON object in memory: the decoded column while a script edits it, or the stored row. */
  class Doc {
    var data: Object

    constructor (data: Object)
      ensures this.data == data
    {
      this.data := data;
    }
  }
}
