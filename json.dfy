/**
 * The documents the synthesiser reads and writes: JSON-like values whose
 * objects are Python dicts, i.e. maps that remember insertion order.
 */
module Json {
  import opened Results

  /**
   * A Python dict with string keys: `keys` lists the keys in insertion
   * order, `vals` holds the entries.
   */
  datatype OrdMap<V> = OrdMap(keys: seq<string>, vals: map<string, V>) {

    /** The representation invariant every Python dict satisfies. */
    ghost predicate Valid() {
      Distinct(keys) && (forall k :: k in vals <==> k in keys)
    }

    /** `d[k] = v`: an existing key keeps its place, a new one goes last. */
    function Put(k: string, v: V): OrdMap<V> {
      OrdMap(if k in vals then keys else keys + [k], vals[k := v])
    }

    /** `d.pop(k)` / `del d[k]` for a key that is present. */
    function Remove(k: string): OrdMap<V> {
      OrdMap(Without(keys, k), vals - {k})
    }
  }

  /** No key is listed twice. */
  ghost predicate Distinct(ks: seq<string>) {
    forall i, j :: 0 <= i < j < |ks| ==> ks[i] != ks[j]
  }

  function Without(ks: seq<string>, k: string): (r: seq<string>)
    ensures forall x :: x in r <==> x in ks && x != k
    ensures |r| <= |ks|
  {
    if ks == [] then []
    else (if ks[0] == k then [] else [ks[0]]) + Without(ks[1..], k)
  }

  lemma {:induction false} WithoutDistinct(ks: seq<string>, k: string)
    requires Distinct(ks)
    ensures Distinct(Without(ks, k))
  {
    if ks != [] {
      WithoutDistinct(ks[1..], k);
      var r := Without(ks, k);
      var tail := Without(ks[1..], k);
      assert ks[0] !in tail by { assert ks[0] !in ks[1..]; }
      if ks[0] == k {
        assert r == tail;
      } else {
        assert r == [ks[0]] + tail;
        forall i, j | 0 <= i < j < |r| ensures r[i] != r[j] {
          if i == 0 { assert r[0] == ks[0]; assert r[j] == tail[j - 1]; assert r[j] in tail; }
          else { assert r[i] == tail[i - 1] && r[j] == tail[j - 1]; }
        }
      }
    }
  }

  function EmptyMap<V>(): (m: OrdMap<V>)
    ensures m.Valid()
  {
    OrdMap([], map[])
  }

  /** Inserting keeps the dict invariant. */
  lemma PutValid<V>(m: OrdMap<V>, k: string, v: V)
    requires m.Valid()
    ensures m.Put(k, v).Valid()
    ensures m.Put(k, v).vals.Keys == m.vals.Keys + {k}
  {
  }

  /** Removing keeps the dict invariant. */
  lemma RemoveValid<V>(m: OrdMap<V>, k: string)
    requires m.Valid()
    ensures m.Remove(k).Valid()
  {
    WithoutDistinct(m.keys, k);
    var r := m.Remove(k);
    forall x ensures x in r.vals <==> x in r.keys {
      assert x in r.keys <==> x in m.keys && x != k;
    }
  }

  /** A JSON value as produced by `json.loads` / `yaml.safe_load` (numbers are integers). */
  datatype Json =
    | JNull
    | JBool(b: bool)
    | JInt(i: int)
    | JStr(s: string)
    | JList(items: seq<Json>)
    | JObj(obj: OrdMap<Json>)

  /** Python truthiness. */
  predicate Truthy(j: Json) {
    match j
    case JNull => false
    case JBool(b) => b
    case JInt(i) => i != 0
    case JStr(s) => s != ""
    case JList(items) => items != []
    case JObj(obj) => obj.vals != map[]
  }

  const NotSubscriptable: string := "value is not subscriptable by a string"
  const NoItemAssignment: string := "value does not support item assignment"

  /** `j[k]`: a missing key is a KeyError, subscripting a non-dict a TypeError. */
  function Field(j: Json, k: string): (r: Result<Json>)
    ensures r.Ok? <==> j.JObj? && k in j.obj.vals
    ensures r.Ok? ==> r.value == j.obj.vals[k]
    ensures j.JObj? && k !in j.obj.vals ==> r == Err(KeyError(k))
  {
    match j
    case JObj(m) => if k in m.vals then Ok(m.vals[k]) else Err(KeyError(k))
    case _ => Err(TypeError(NotSubscriptable))
  }

  /** `j[p0][p1]...`. */
  function Path(j: Json, path: seq<string>): Result<Json>
    decreases |path|
  {
    if path == [] then Ok(j)
    else
      var child :- Field(j, path[0]);
      Path(child, path[1..])
  }

  /** `j[k] = v`: only a dict accepts a string key. */
  function SetField(j: Json, k: string, v: Json): (r: Result<Json>)
    ensures r.Ok? <==> j.JObj?
    ensures r.Ok? ==> Field(r.value, k) == Ok(v)
    ensures r.Ok? ==> forall x :: x != k ==> Field(r.value, x) == Field(j, x)
  {
    match j
    case JObj(m) => Ok(JObj(m.Put(k, v)))
    case _ => Err(TypeError(NoItemAssignment))
  }

  /** `j[p0]...[pn] = v`. */
  function SetPath(j: Json, path: seq<string>, v: Json): Result<Json>
    requires |path| > 0
    decreases |path|
  {
    if |path| == 1 then SetField(j, path[0], v)
    else
      var child :- Field(j, path[0]);
      var child' :- SetPath(child, path[1..], v);
      SetField(j, path[0], child')
  }

  /** Reading back a path just written gives the value written. */
  lemma {:induction false} SetPathThenPath(j: Json, path: seq<string>, v: Json)
    requires |path| > 0
    requires SetPath(j, path, v).Ok?
    ensures Path(SetPath(j, path, v).value, path) == Ok(v)
    decreases |path|
  {
    if |path| > 1 {
      var child := Field(j, path[0]).value;
      SetPathThenPath(child, path[1..], v);
    }
  }

  /** Reading a path that starts with `k`: the entry under `k`, then the rest. */
  lemma PathCons(j: Json, k: string, rest: seq<string>)
    requires Field(j, k).Ok?
    ensures Path(j, [k] + rest) == Path(Field(j, k).value, rest)
  {
    assert ([k] + rest)[1..] == rest;
  }

  /** Reading `p + q` is reading `p`, then `q` from where `p` led. */
  lemma {:induction false} PathAppend(j: Json, p: seq<string>, q: seq<string>)
    requires Path(j, p).Ok?
    ensures Path(j, p + q) == Path(Path(j, p).value, q)
    decreases |p|
  {
    if p == [] {
      assert p + q == q;
    } else {
      assert (p + q)[0] == p[0] && (p + q)[1..] == p[1..] + q;
      PathAppend(Field(j, p[0]).value, p[1..], q);
    }
  }

  /** Every proper prefix of a path that can be read leads to a dict. */
  lemma {:induction false} PathPrefixOk(j: Json, p: seq<string>, k: nat)
    requires Path(j, p).Ok? && k < |p|
    ensures Path(j, p[..k]).Ok? && Path(j, p[..k]).value.JObj?
    decreases |p|
  {
    if k > 0 {
      PathPrefixOk(Field(j, p[0]).value, p[1..], k - 1);
      assert p[..k][1..] == p[1..][..k - 1];
    }
  }

  /** Setting a key leaves every path that starts elsewhere as it was. */
  lemma KeepsPath(j: Json, k: string, v: Json, q: seq<string>)
    requires j.JObj? && |q| > 0 && q[0] != k
    ensures Path(SetField(j, k, v).value, q) == Path(j, q)
  {
    assert Field(SetField(j, k, v).value, q[0]) == Field(j, q[0]);
  }

  /** Two paths that part ways at some step. */
  predicate Diverge(p: seq<string>, q: seq<string>)
    decreases |p|
  {
    |p| > 0 && |q| > 0 && (p[0] != q[0] || Diverge(p[1..], q[1..]))
  }

  /** Writing along a path fails exactly when the dict that should take the last key is missing. */
  lemma {:induction false} SetPathOk(j: Json, path: seq<string>, v: Json)
    requires |path| > 0
    ensures SetPath(j, path, v).Ok?
            <==> Path(j, path[..|path| - 1]).Ok? && Path(j, path[..|path| - 1]).value.JObj?
    decreases |path|
  {
    if |path| > 1 && Field(j, path[0]).Ok? {
      SetPathOk(Field(j, path[0]).value, path[1..], v);
      assert path[..|path| - 1][1..] == path[1..][..|path[1..]| - 1];
    }
  }

  /** Writing along one path leaves what lies along a diverging path as it was. */
  lemma {:induction false} SetPathElsewhere(j: Json, p: seq<string>, v: Json, q: seq<string>)
    requires |p| > 0 && SetPath(j, p, v).Ok? && Diverge(p, q)
    ensures Path(SetPath(j, p, v).value, q) == Path(j, q)
    decreases |p|
  {
    var r := SetPath(j, p, v).value;
    if p[0] == q[0] {
      var child := Field(j, p[0]).value;
      SetPathElsewhere(child, p[1..], v, q[1..]);
      assert Field(r, q[0]) == Ok(SetPath(child, p[1..], v).value);
    } else {
      assert Field(r, q[0]) == Field(j, q[0]);
    }
  }

  /** After writing along a path, every dict on the way is still a dict. */
  lemma {:induction false} SetPathPrefix(j: Json, p: seq<string>, v: Json, k: nat)
    requires |p| > 0 && SetPath(j, p, v).Ok? && k < |p|
    ensures Path(SetPath(j, p, v).value, p[..k]).Ok? && Path(SetPath(j, p, v).value, p[..k]).value.JObj?
    decreases |p|
  {
    var r := SetPath(j, p, v).value;
    if k > 0 {
      var child := Field(j, p[0]).value;
      SetPathPrefix(child, p[1..], v, k - 1);
      assert Field(r, p[0]) == Ok(SetPath(child, p[1..], v).value);
      assert p[..k][1..] == p[1..][..k - 1];
    }
  }

  /** `list(j.keys()).pop()`: the most recently inserted key. */
  function LastKey(j: Json): (r: Result<string>)
    ensures r.Ok? <==> j.JObj? && |j.obj.keys| > 0
    ensures r.Ok? ==> r.value == j.obj.keys[|j.obj.keys| - 1]
  {
    match j
    case JObj(m) => if |m.keys| == 0 then Err(IndexError) else Ok(m.keys[|m.keys| - 1])
    case _ => Err(AttributeError("keys"))
  }

  /** A value used as a Python `str`. */
  function AsStr(j: Json): (r: Result<string>)
    ensures r.Ok? <==> j.JStr?
  {
    if j.JStr? then Ok(j.s) else Err(AttributeError("str method on a non-string"))
  }

  /** A dict literal `{k0: v0, k1: v1, ...}`. */
  function ObjOf(entries: seq<(string, Json)>): (r: OrdMap<Json>)
    ensures forall e :: e in entries ==> e.0 in r.vals
    ensures forall k :: k in r.vals ==> exists e :: e in entries && e.0 == k
    ensures r.Valid()
    decreases |entries|
  {
    if entries == [] then EmptyMap()
    else
      var init := ObjOf(entries[..|entries| - 1]);
      var last := entries[|entries| - 1];
      PutValid(init, last.0, last.1);
      assert forall e :: e in entries ==> e in entries[..|entries| - 1] || e == last;
      init.Put(last.0, last.1)
  }

  /** A dict of one entry. */
  function Single(k: string, v: Json): (m: OrdMap<Json>)
    ensures m.Valid() && m.keys == [k] && k in m.vals && m.vals[k] == v
  {
    OrdMap([k], map[k := v])
  }

  /** CloudFormation's `{'Ref': name}`. */
  function Ref(name: string): Json {
    JObj(Single("Ref", JStr(name)))
  }

  /** CloudFormation's `{'Fn::Sub': text}`. */
  function Sub(text: string): Json {
    JObj(Single("Fn::Sub", JStr(text)))
  }

  /** A template parameter declaration `{'Description': ..., 'Type': ...}`. */
  function ParameterDecl(description: string, typ: string): (j: Json)
    ensures j.JObj? && j.obj.Valid() && j.obj.keys == ["Description", "Type"]
    ensures Field(j, "Type") == Ok(JStr(typ)) && Field(j, "Description") == Ok(JStr(description))
  {
    JObj(OrdMap(["Description", "Type"], map["Description" := JStr(description), "Type" := JStr(typ)]))
  }

  /** The `Properties` dict of a resource skeleton. */
  function PropertiesOf(skeleton: Json): (r: Result<OrdMap<Json>>)
    ensures r.Ok? <==> Field(skeleton, "Properties").Ok? && Field(skeleton, "Properties").value.JObj?
    ensures r.Ok? ==> r.value == skeleton.obj.vals["Properties"].obj
  {
    var p :- Field(skeleton, "Properties");
    if p.JObj? then Ok(p.obj) else Err(TypeError("Properties is not a dict"))
  }
}
