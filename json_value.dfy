/** JSON values as the character-description document delivers them after
    parsing, with the two operations Python's subscript performs on them:
    a key lookup that fails instead of raising, and the chained lookup
    `a[k1][k2]...` built from it. */
module JsonValue {

  /** A lookup that has a value, or failed (the `except:` branch). */
  datatype Option<+T> = None | Some(value: T)

  /** A parsed JSON value. An object keeps its members in document order,
      because the accessors search mappings in key order. */
  datatype Json =
    | JNull
    | JBool(b: bool)
    | JNum(n: real)
    | JStr(s: string)
    | JArr(items: seq<Json>)
    | JObj(fields: seq<(string, Json)>)

  /** Python's `not x` on a parsed JSON value: None, False, zero, and the
      empty string, list and mapping are false. */
  predicate Falsy(j: Json): (r: bool)
    ensures r <==> j == JNull || j == JBool(false) || j == JNum(0.0)
                   || j == JStr("") || j == JArr([]) || j == JObj([])
  {
    match j
    case JNull => true
    case JBool(b) => !b
    case JNum(n) => n == 0.0
    case JStr(s) => s == ""
    case JArr(xs) => xs == []
    case JObj(fs) => fs == []
  }

  /** What Python's `x is None` says of a lookup outcome: a caught failure
      and a JSON null found in the document are the same `None` there. */
  predicate IsPyNone(o: Option<Json>): (r: bool)
    ensures r <==> o == None || o == Some(JNull)
  {
    o.None? || o.value == JNull
  }

  /** The keys of a mapping, in document order. */
  function Keys(fs: seq<(string, Json)>): (ks: seq<string>)
    ensures |ks| == |fs|
    ensures forall i :: 0 <= i < |fs| ==> ks[i] == fs[i].0
  {
    seq(|fs|, i requires 0 <= i < |fs| => fs[i].0)
  }

  /** The position of the first member named `k`, or `|fs|` when there is none. */
  function FindKey(fs: seq<(string, Json)>, k: string): (i: nat)
    ensures i <= |fs|
    ensures forall j :: 0 <= j < i ==> fs[j].0 != k
    ensures i < |fs| ==> fs[i].0 == k
  {
    if fs == [] then 0
    else if fs[0].0 == k then 0
    else 1 + FindKey(fs[1..], k)
  }

  /** Python's `j[k]` for a string key: only a mapping that holds `k` has
      a value; every other value raises (KeyError or TypeError). */
  function Get(j: Json, k: string): (r: Option<Json>)
    ensures r.Some? <==> j.JObj? && FindKey(j.fields, k) < |j.fields|
    ensures r.Some? ==> j.fields[FindKey(j.fields, k)] == (k, r.value)
    ensures Falsy(j) ==> r.None?
  {
    match j
    case JObj(fs) =>
      var i := FindKey(fs, k);
      if i < |fs| then Some(fs[i].1) else None
    case _ => None
  }

  /** A lookup succeeds exactly on a mapping that has a member with the key. */
  lemma GetHasKey(j: Json, k: string)
    ensures Get(j, k).Some? <==> j.JObj? && k in Keys(j.fields)
  {
    if j.JObj? && k in Keys(j.fields) {
      var i :| 0 <= i < |j.fields| && Keys(j.fields)[i] == k;
      assert FindKey(j.fields, k) <= i;
    }
  }

  /** `j[ks[0]][ks[1]]...` inside a `try`: the value at the end of the key
      path, or None as soon as one step fails. */
  function Path(j: Json, ks: seq<string>): (r: Option<Json>)
    ensures ks == [] ==> r == Some(j)
    ensures ks != [] && r.Some? ==> j.JObj? && ks[0] in Keys(j.fields)
    decreases |ks|
  {
    if ks == [] then Some(j)
    else
      match Get(j, ks[0])
      case None => None
      case Some(c) => Path(c, ks[1..])
  }

  /** Continue a lookup that may already have failed. */
  function Then(o: Option<Json>, ks: seq<string>): Option<Json>
  {
    match o
    case None => None
    case Some(j) => Path(j, ks)
  }

  /** A path lookup is the lookup of its first part followed by the lookup of the rest. */
  lemma {:induction false} PathAppend(j: Json, p: seq<string>, q: seq<string>)
    ensures Path(j, p + q) == Then(Path(j, p), q)
  {
    if p != [] {
      assert (p + q)[0] == p[0];
      assert (p + q)[1..] == p[1..] + q;
      match Get(j, p[0])
      case None =>
        assert Path(j, p + q) == None;
      case Some(c) =>
        PathAppend(c, p[1..], q);
        assert Path(j, p + q) == Path(c, p[1..] + q);
        assert Path(j, p) == Path(c, p[1..]);
    } else {
      assert p + q == q;
    }
  }

  /** One step of a chained lookup. */
  lemma PathStep(j: Json, ks: seq<string>)
    requires ks != []
    ensures Path(j, ks) == Then(Get(j, ks[0]), ks[1..])
  {
  }

  /** The document with the value at the end of `ks` replaced by `v`, the
      effect of an in-place change to that value. Below the top, the
      document keeps its shape: a mapping stays a mapping with the same
      keys, in the same order. */
  function SetPath(j: Json, ks: seq<string>, v: Json): (r: Json)
    ensures ks != [] ==> (r.JObj? <==> j.JObj?)
    ensures ks != [] && j.JObj? ==> Keys(r.fields) == Keys(j.fields)
    decreases |ks|
  {
    if ks == [] then v
    else
      match j
      case JObj(fs) =>
        var i := FindKey(fs, ks[0]);
        if i < |fs| then
          var fs' := fs[i := (fs[i].0, SetPath(fs[i].1, ks[1..], v))];
          assert Keys(fs') == Keys(fs);
          JObj(fs')
        else j
      case _ => j
  }

  /** Mappings with the same keys put a given key at the same position. */
  lemma SameKeysSameFind(fs: seq<(string, Json)>, gs: seq<(string, Json)>, k: string)
    requires Keys(fs) == Keys(gs)
    ensures FindKey(fs, k) == FindKey(gs, k)
  {
    assert |fs| == |gs|;
  }

  /** Replacing the value of member `i` changes what `Get` finds at that
      member's key only. */
  lemma GetAfterUpdate(fs: seq<(string, Json)>, i: nat, c: Json, k: string)
    requires i < |fs|
    ensures Get(JObj(fs[i := (fs[i].0, c)]), k)
         == if FindKey(fs, k) == i then Some(c) else Get(JObj(fs), k)
  {
    var fs' := fs[i := (fs[i].0, c)];
    assert Keys(fs') == Keys(fs);
    SameKeysSameFind(fs, fs', k);
  }

  /** How `SetPath` acts on a mapping holding the first key. */
  lemma SetPathStep(j: Json, ks: seq<string>, v: Json)
    requires ks != [] && j.JObj? && FindKey(j.fields, ks[0]) < |j.fields|
    ensures var i := FindKey(j.fields, ks[0]);
            SetPath(j, ks, v) == JObj(j.fields[i := (j.fields[i].0, SetPath(j.fields[i].1, ks[1..], v))])
  {
  }

  /** Writing at a path that does not resolve changes nothing. */
  lemma {:induction false} SetPathUnresolved(j: Json, ks: seq<string>, v: Json)
    requires Path(j, ks).None?
    ensures SetPath(j, ks, v) == j
    decreases |ks|
  {
    PathStep(j, ks);
    if j.JObj? && FindKey(j.fields, ks[0]) < |j.fields| {
      var i := FindKey(j.fields, ks[0]);
      SetPathUnresolved(j.fields[i].1, ks[1..], v);
      SetPathStep(j, ks, v);
      assert j.fields[i := (j.fields[i].0, j.fields[i].1)] == j.fields;
    }
  }

  /** After writing `v` at a path that resolves, the path reads `v`. */
  lemma {:induction false} SetPathReads(j: Json, ks: seq<string>, v: Json)
    requires Path(j, ks).Some?
    ensures Path(SetPath(j, ks, v), ks) == Some(v)
    decreases |ks|
  {
    if ks != [] {
      PathStep(j, ks);
      var i := FindKey(j.fields, ks[0]);
      var child := SetPath(j.fields[i].1, ks[1..], v);
      SetPathReads(j.fields[i].1, ks[1..], v);
      SetPathStep(j, ks, v);
      GetAfterUpdate(j.fields, i, child, ks[0]);
      PathStep(SetPath(j, ks, v), ks);
    }
  }

  /** Writing the same place twice leaves only the second write. */
  lemma {:induction false} SetPathTwice(j: Json, ks: seq<string>, v: Json, w: Json)
    ensures SetPath(SetPath(j, ks, v), ks, w) == SetPath(j, ks, w)
    decreases |ks|
  {
    if ks != [] && j.JObj? && FindKey(j.fields, ks[0]) < |j.fields| {
      var fs := j.fields;
      var i := FindKey(fs, ks[0]);
      var once := SetPath(j, ks, v);
      SetPathStep(j, ks, v);
      SameKeysSameFind(fs, once.fields, ks[0]);
      SetPathStep(once, ks, w);
      SetPathStep(j, ks, w);
      SetPathTwice(fs[i].1, ks[1..], v, w);
      assert once.fields[i := (once.fields[i].0, SetPath(once.fields[i].1, ks[1..], w))]
          == fs[i := (fs[i].0, SetPath(fs[i].1, ks[1..], w))];
    }
  }

  /** A value that a non-empty path resolves in is a non-empty mapping,
      and so is not falsy; writing below it keeps it that way. */
  lemma ResolvedIsTruthy(j: Json, ks: seq<string>, v: Json)
    requires ks != [] && Path(j, ks).Some?
    ensures !Falsy(j) && !Falsy(SetPath(j, ks, v))
  {
    PathStep(j, ks);
    assert |Keys(SetPath(j, ks, v).fields)| == |j.fields|;
  }

  /** Two key paths lead to unrelated places: neither extends the other. */
  predicate Apart(p: seq<string>, q: seq<string>)
  {
    !(p <= q) && !(q <= p)
  }

  /** Writing at one place leaves every unrelated place as it was. */
  lemma {:induction false} SetPathElsewhere(j: Json, ks: seq<string>, v: Json, q: seq<string>)
    requires Apart(ks, q)
    ensures Path(SetPath(j, ks, v), q) == Path(j, q)
    decreases |ks|
  {
    assert ks != [] && q != [];
    if j.JObj? && FindKey(j.fields, ks[0]) < |j.fields| {
      var fs := j.fields;
      var i := FindKey(fs, ks[0]);
      var child := SetPath(fs[i].1, ks[1..], v);
      SetPathStep(j, ks, v);
      GetAfterUpdate(fs, i, child, q[0]);
      PathStep(j, q);
      PathStep(SetPath(j, ks, v), q);
      if FindKey(fs, q[0]) == i {
        assert Apart(ks[1..], q[1..]) by {
          assert ks == [ks[0]] + ks[1..] && q == [q[0]] + q[1..];
        }
        SetPathElsewhere(fs[i].1, ks[1..], v, q[1..]);
      }
    }
  }
}
