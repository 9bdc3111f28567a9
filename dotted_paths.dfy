/**
 * Dotted-path access to a nested settings object, as `Config.get` and
 * `Config.set` do it (app.py:60-78): a path string is cut at every '.', and
 * the pieces are followed one object level at a time.
 */
module DottedPaths {
  import opened Wrappers
  import opened JsonValue

  /** Python's `path.split('.')`: never empty; "" gives [""] and "a..b" gives ["a", "", "b"]. */
  function Split(path: string): (keys: seq<string>)
    ensures |keys| >= 1
  {
    if path == [] then [""]
    else
      var rest := Split(path[1..]);
      if path[0] == '.' then [""] + rest
      else [[path[0]] + rest[0]] + rest[1..]
  }

  /** No segment holds a '.'. */
  lemma {:induction false} SplitSegments(path: string)
    ensures forall i :: 0 <= i < |Split(path)| ==> '.' !in Split(path)[i]
  {
    if path != [] {
      SplitSegments(path[1..]);
    }
  }

  /** Python's `'.'.join(keys)`, the inverse of `Split`. */
  function Join(keys: seq<string>): string
    requires |keys| >= 1
  {
    if |keys| == 1 then keys[0] else keys[0] + "." + Join(keys[1..])
  }

  lemma {:induction false} JoinSplit(path: string)
    ensures Join(Split(path)) == path
  {
    if path != [] {
      JoinSplit(path[1..]);
      var rest := Split(path[1..]);
      if path[0] == '.' {
        assert Split(path)[1..] == rest;
      } else if |rest| == 1 {
        assert path == [path[0]] + path[1..];
      } else {
        assert Split(path)[1..] == rest[1..];
        assert Join(rest) == rest[0] + "." + Join(rest[1..]);
        assert path == [path[0]] + path[1..];
      }
    }
  }

  lemma {:induction false} SplitJoin(keys: seq<string>)
    requires |keys| >= 1
    requires forall i :: 0 <= i < |keys| ==> '.' !in keys[i]
    ensures Split(Join(keys)) == keys
  {
    if |keys| == 1 {
      SplitNoDot(keys[0]);
    } else {
      SplitJoin(keys[1..]);
      SplitDot(keys[0], Join(keys[1..]));
      SplitNoDot(keys[0]);
      assert [keys[0]] + keys[1..] == keys;
    }
  }

  /** A string without '.' is a single segment. */
  lemma {:induction false} SplitNoDot(s: string)
    requires '.' !in s
    ensures Split(s) == [s]
  {
    if s != [] {
      SplitNoDot(s[1..]);
      assert [s[0]] + s[1..] == s;
    }
  }

  /** Cutting `a + "." + b` gives the segments of `a` followed by those of `b`. */
  lemma {:induction false} SplitDot(a: string, b: string)
    ensures Split(a + "." + b) == Split(a) + Split(b)
  {
    var s := a + "." + b;
    if a == [] {
      assert s[0] == '.' && s[1..] == b;
      assert Split(s) == [""] + Split(b);
    } else {
      SplitDot(a[1..], b);
      assert s[0] == a[0] && s[1..] == a[1..] + "." + b;
      SplitFirst(a[0], Split(a[1..]), Split(b));
    }
  }

  /** One more leading character on both sides of `SplitDot`'s equation keeps it. */
  lemma SplitFirst(c: char, tail: seq<string>, rest: seq<string>)
    requires |tail| >= 1
    ensures (if c == '.' then [""] + (tail + rest) else [[c] + (tail + rest)[0]] + (tail + rest)[1..])
      == (if c == '.' then [""] + tail else [[c] + tail[0]] + tail[1..]) + rest
  {
    if c == '.' {
      assert [""] + tail + rest == [""] + (tail + rest);
    } else {
      assert (tail + rest)[0] == tail[0] && (tail + rest)[1..] == tail[1..] + rest;
      assert [[c] + tail[0]] + tail[1..] + rest == [[c] + tail[0]] + (tail[1..] + rest);
    }
  }

  /** The dotted name `section.name`, as the handlers write their settings paths. */
  function Dotted(section: string, name: string): string
  {
    section + "." + name
  }

  /** A dotted name of two dot-free parts is the two-key path. */
  lemma DottedKeys(section: string, name: string)
    requires '.' !in section && '.' !in name
    ensures Split(Dotted(section, name)) == [section, name]
  {
    SplitDot(section, name);
    SplitNoDot(section);
    SplitNoDot(name);
  }

  /**
   * The value at `keys` below `node`, if every step lands on an object that
   * holds the next key.
   */
  function At(node: Json, keys: seq<string>): Option<Json>
  {
    if keys == [] then Some(node)
    else if node.JObj? && keys[0] in node.fields then At(node.fields[keys[0]], keys[1..])
    else None
  }

  /**
   * The walk of `Config.get` (app.py:60-68): rebind the current value to its
   * child at each key, and give up with `default` as soon as the current value
   * is not an object or lacks the key.
   */
  function Lookup(node: Json, keys: seq<string>, default: Json): (r: Json)
  {
    if keys == [] then node
    else if node.JObj? && keys[0] in node.fields then Lookup(node.fields[keys[0]], keys[1..], default)
    else default
  }

  /** `Config.get` returns the value at the full path when there is one, and the default otherwise. */
  lemma {:induction false} LookupIsAt(node: Json, keys: seq<string>, default: Json)
    ensures Lookup(node, keys, default) == At(node, keys).GetOr(default)
  {
    if keys != [] && node.JObj? && keys[0] in node.fields {
      LookupIsAt(node.fields[keys[0]], keys[1..], default);
    }
  }

  /** Reading a path in two steps is reading the concatenated path. */
  lemma {:induction false} AtConcat(node: Json, p: seq<string>, q: seq<string>)
    ensures At(node, p + q) == (if At(node, p).Some? then At(At(node, p).value, q) else None)
  {
    if p != [] {
      assert (p + q)[0] == p[0] && (p + q)[1..] == p[1..] + q;
      if node.JObj? && p[0] in node.fields {
        AtConcat(node.fields[p[0]], p[1..], q);
      }
    } else {
      assert p + q == q;
    }
  }

  /** The child that `Config.set` descends into: the existing value, or a fresh `{}`. */
  function ChildOrEmpty(fields: map<string, Json>, k: string): Json
  {
    if k in fields then fields[k] else JObj(map[])
  }

  /**
   * The effect of `Config.set` (app.py:70-77) on the tree below `node`:
   * missing objects on the way are created, the leaf is overwritten, and the
   * result is `None` when an object is needed (to test `k not in target` or to
   * assign into it) and a non-object is found: Python raises a TypeError there.
   */
  function Put(node: Json, keys: seq<string>, v: Json): Option<Json>
    requires |keys| >= 1
    decreases |keys|
  {
    if !node.JObj? then None
    else if |keys| == 1 then Some(JObj(node.fields[keys[0] := v]))
    else
      match Put(ChildOrEmpty(node.fields, keys[0]), keys[1..], v)
      case None => None
      case Some(child) => Some(JObj(node.fields[keys[0] := child]))
  }

  /** One level of `Put` below an object: it succeeds when the step into the child does. */
  lemma PutStep(node: Json, keys: seq<string>, i: nat, v: Json)
    requires node.JObj? && i + 1 < |keys|
    ensures Put(node, keys[i..], v).Some? == Put(ChildOrEmpty(node.fields, keys[i]), keys[i + 1..], v).Some?
    ensures Put(ChildOrEmpty(node.fields, keys[i]), keys[i + 1..], v).Some? ==>
      Put(node, keys[i..], v) == Some(JObj(node.fields[keys[i] := Put(ChildOrEmpty(node.fields, keys[i]), keys[i + 1..], v).value]))
  {
    assert keys[i..][0] == keys[i] && keys[i..][1..] == keys[i + 1..];
  }

  /** Below an empty object every step creates a fresh one, so nothing can fail. */
  lemma {:induction false} PutIntoEmpty(keys: seq<string>, v: Json)
    requires |keys| >= 1
    ensures Put(JObj(map[]), keys, v).Some?
    decreases |keys|
  {
    if |keys| > 1 {
      PutIntoEmpty(keys[1..], v);
    }
  }

  /**
   * `Config.set` fails exactly when one of the values it must treat as an
   * object, at depth 0 to |keys| - 1 along the path, exists and is not one.
   */
  lemma {:induction false} PutFailsIff(node: Json, keys: seq<string>, v: Json)
    requires |keys| >= 1
    ensures Put(node, keys, v).None? <==>
      exists i :: 0 <= i < |keys| && At(node, keys[..i]).Some? && !At(node, keys[..i]).value.JObj?
    decreases |keys|
  {
    assert keys[..0] == [];
    if node.JObj? && |keys| > 1 {
      var child := ChildOrEmpty(node.fields, keys[0]);
      var tail := keys[1..];
      if keys[0] in node.fields {
        PutFailsIff(child, tail, v);
        forall i | 1 <= i <= |tail|
          ensures At(node, keys[..i]) == At(child, tail[..i - 1])
        {
          assert keys[..i][0] == keys[0] && keys[..i][1..] == tail[..i - 1];
        }
        if Put(node, keys, v).None? {
          var j :| 0 <= j < |tail| && At(child, tail[..j]).Some? && !At(child, tail[..j]).value.JObj?;
          assert At(node, keys[..j + 1]) == At(child, tail[..j]);
        } else {
          forall i | 0 <= i < |keys| && At(node, keys[..i]).Some?
            ensures At(node, keys[..i]).value.JObj?
          {
            if i > 0 {
              assert At(node, keys[..i]) == At(child, tail[..i - 1]);
            }
          }
        }
      } else {
        PutIntoEmpty(tail, v);
        forall i | 1 <= i < |keys|
          ensures At(node, keys[..i]).None?
        {
          assert keys[..i][0] == keys[0];
        }
      }
    } else if node.JObj? {
      assert forall i :: 0 <= i < |keys| ==> keys[..i] == [];
    }
  }

  /** After `set(p, v)`, `get(p)` returns `v`. */
  lemma {:induction false} LookupAfterPut(node: Json, keys: seq<string>, v: Json, default: Json)
    requires |keys| >= 1 && Put(node, keys, v).Some?
    ensures Lookup(Put(node, keys, v).value, keys, default) == v
    decreases |keys|
  {
    if |keys| > 1 {
      LookupAfterPut(ChildOrEmpty(node.fields, keys[0]), keys[1..], v, default);
    }
  }

  /** After `set(p, v)`, every path extending `p` reads from inside `v`. */
  lemma {:induction false} LookupBelowPut(node: Json, keys: seq<string>, v: Json, rest: seq<string>, default: Json)
    requires |keys| >= 1 && Put(node, keys, v).Some?
    ensures Lookup(Put(node, keys, v).value, keys + rest, default) == Lookup(v, rest, default)
    decreases |keys|
  {
    assert (keys + rest)[0] == keys[0] && (keys + rest)[1..] == keys[1..] + rest;
    if |keys| > 1 {
      LookupBelowPut(ChildOrEmpty(node.fields, keys[0]), keys[1..], v, rest, default);
    }
  }

  /** After `set(p, v)`, every strict prefix of `p` names an object: missing levels were created. */
  lemma {:induction false} PutCreatesObjects(node: Json, keys: seq<string>, v: Json, i: nat)
    requires |keys| >= 1 && Put(node, keys, v).Some? && i < |keys|
    ensures At(Put(node, keys, v).value, keys[..i]).Some?
    ensures At(Put(node, keys, v).value, keys[..i]).value.JObj?
    decreases |keys|
  {
    if i > 0 {
      assert keys[..i][0] == keys[0] && keys[..i][1..] == keys[1..][..i - 1];
      PutCreatesObjects(ChildOrEmpty(node.fields, keys[0]), keys[1..], v, i - 1);
    }
  }

  /** Two paths diverge when neither is a prefix of the other. */
  predicate Diverge(p: seq<string>, q: seq<string>) {
    exists i :: 0 <= i < |p| && i < |q| && p[i] != q[i]
  }

  /** After `set(p, v)`, every path that is neither a prefix nor an extension of `p` reads as before. */
  lemma {:induction false} LookupBesidePut(node: Json, keys: seq<string>, v: Json, other: seq<string>, default: Json)
    requires |keys| >= 1 && Put(node, keys, v).Some?
    requires Diverge(keys, other)
    ensures Lookup(Put(node, keys, v).value, other, default) == Lookup(node, other, default)
    decreases |keys|
  {
    var i :| 0 <= i < |keys| && i < |other| && keys[i] != other[i];
    if keys[0] == other[0] {
      assert i > 0 && |keys| > 1;
      assert keys[1..][i - 1] == keys[i] && other[1..][i - 1] == other[i];
      var child := ChildOrEmpty(node.fields, keys[0]);
      LookupBesidePut(child, keys[1..], v, other[1..], default);
      if keys[0] !in node.fields {
        assert |other[1..]| >= 1;
        assert Lookup(child, other[1..], default) == default;
      }
    }
  }
}
