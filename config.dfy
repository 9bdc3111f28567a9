/**
 * The settings store `Config` (app.py:26-78): a nested settings object read
 * and written by dotted path, written back to its file on every change.
 */
module ConfigStore {
  import opened Wrappers
  import opened JsonValue
  import opened DottedPaths

  /** The settings used when no settings file exists (app.py:41-58). */
  function DefaultConfig(): (d: Json)
    ensures d.JObj? && d.fields.Keys == {"llm", "pinehill", "app"}
  {
    JObj(map[
      "llm" := JObj(map[
        "provider" := JStr("openai"),
        "api_key" := JStr(""),
        "base_url" := JStr(""),
        "model" := JStr("gpt-4o-mini"),
        "temperature" := JNum(Float(7, -1))]),
      "pinehill" := JObj(map["db_path" := JStr("pinehill.db")]),
      "app" := JObj(map[
        "host" := JStr("0.0.0.0"),
        "port" := JNum(Int(8080)),
        "language" := JStr("ko")])])
  }

  /**
   * The objects `set` passes through for `keys[:-1]` (app.py:72-76), each
   * followed by the existing child or a fresh `{}`; `found` is false when one
   * of them, or the object the last key is assigned into, is not an object.
   */
  method Descend(root: Json, keys: seq<string>, value: Json) returns (trail: seq<Json>, found: bool)
    requires |keys| >= 1
    ensures found == Put(root, keys, value).Some?
    ensures found ==> |trail| == |keys| && trail[0] == root && trail[|keys| - 1].JObj?
    ensures found ==> forall j :: 0 <= j < |keys| - 1 ==>
      trail[j].JObj? && trail[j + 1] == ChildOrEmpty(trail[j].fields, keys[j])
  {
    var n := |keys|;
    trail := [root];
    var i := 0;
    while i < n - 1
      invariant 0 <= i <= n - 1
      invariant |trail| == i + 1 && trail[0] == root
      invariant forall j :: 0 <= j < i ==> trail[j].JObj? && trail[j + 1] == ChildOrEmpty(trail[j].fields, keys[j])
      invariant Put(root, keys, value).Some? == Put(trail[i], keys[i..], value).Some?
    {
      var target := trail[i];
      if !target.JObj? {
        assert Put(target, keys[i..], value).None?;
        return trail, false;
      }
      PutStep(target, keys, i, value);
      trail := trail + [ChildOrEmpty(target.fields, keys[i])];
      i := i + 1;
    }
    assert keys[n - 1..] == [keys[n - 1]];
    found := trail[n - 1].JObj?;
  }

  /**
   * The objects on the path rebuilt bottom-up once the leaf is assigned: the
   * value `set` leaves at the root.
   */
  method Rebuild(trail: seq<Json>, keys: seq<string>, value: Json) returns (root: Json)
    requires |keys| >= 1 && |trail| == |keys| && trail[|keys| - 1].JObj?
    requires forall j :: 0 <= j < |keys| - 1 ==> trail[j].JObj? && trail[j + 1] == ChildOrEmpty(trail[j].fields, keys[j])
    ensures Put(trail[0], keys, value) == Some(root)
  {
    var n := |keys|;
    root := JObj(trail[n - 1].fields[keys[n - 1] := value]);
    assert keys[n - 1..] == [keys[n - 1]];
    var j := n - 1;
    while j > 0
      invariant 0 <= j <= n - 1
      invariant Put(trail[j], keys[j..], value) == Some(root)
    {
      j := j - 1;
      PutStep(trail[j], keys, j, value);
      root := JObj(trail[j].fields[keys[j] := root]);
    }
    assert keys[0..] == keys;
  }

  class Config {
    /** The whole settings document; `json.load` may yield any JSON value, not only an object. */
    var data: Json
    /** What the settings file holds: `None` while it does not exist; `save` overwrites it with `data`. */
    ghost var persisted: Option<Json>

    /**
     * `load` (app.py:28-35): the file's content when the file exists, the
     * default settings otherwise. Loading does not write the file.
     */
    constructor (stored: Option<Json>)
      ensures data == (if stored.Some? then stored.value else DefaultConfig())
      ensures persisted == stored
    {
      data := if stored.Some? then stored.value else DefaultConfig();
      persisted := stored;
    }

    /** `save` (app.py:37-39): the whole document replaces the file's content. */
    method Save()
      modifies this`persisted
      ensures persisted == Some(data)
    {
      persisted := Some(data);
    }

    /** `get(path, default)` (app.py:60-68): the value at the full path if there is one, else `default`. */
    function Get(path: string, default: Json): (r: Json)
      reads this
      ensures r == At(data, Split(path)).GetOr(default)
    {
      LookupIsAt(data, Split(path), default);
      Lookup(data, Split(path), default)
    }

    /**
     * `set(path, value)` (app.py:70-78): walk down `keys[:-1]`, inserting an
     * empty object for each missing key, overwrite the last key, then save.
     * `ok` is false where Python raises a TypeError (a value on the way is not
     * an object); this can only happen before anything was inserted, so the
     * document and the file are then unchanged.
     */
    method Set(path: string, value: Json) returns (ok: bool)
      modifies this
      ensures ok == Put(old(data), Split(path), value).Some?
      ensures ok ==> data == Put(old(data), Split(path), value).value && persisted == Some(data)
      ensures !ok ==> data == old(data) && persisted == old(persisted)
    {
      var keys := Split(path);
      var trail, found := Descend(data, keys, value);
      if !found {
        return false;
      }
      data := Rebuild(trail, keys, value);
      Save();
      ok := true;
    }
  }
}
