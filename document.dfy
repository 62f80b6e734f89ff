/** The CloudFormation template documents the generators extend in place. */
module Documents {
  import opened Results
  import opened Json

  /** The two sections the generators write: Resources and Parameters. */
  datatype Sections = Sections(resources: OrdMap<Json>, parameters: OrdMap<Json>)

  /** `b` keeps every entry position of `a` and may append new keys. */
  ghost predicate Extends(a: OrdMap<Json>, b: OrdMap<Json>) {
    |a.keys| <= |b.keys| && b.keys[..|a.keys|] == a.keys
    && (forall k :: k in a.vals ==> k in b.vals)
  }

  lemma ExtendsReflexive(a: OrdMap<Json>)
    ensures Extends(a, a)
  {
  }

  lemma ExtendsPut(a: OrdMap<Json>, k: string, v: Json)
    ensures Extends(a, a.Put(k, v))
  {
  }

  lemma ExtendsTransitive(a: OrdMap<Json>, b: OrdMap<Json>, c: OrdMap<Json>)
    requires Extends(a, b) && Extends(b, c)
    ensures Extends(a, c)
  {
    assert c.keys[..|a.keys|] == c.keys[..|b.keys|][..|a.keys|];
  }

  /** `d.update({k0: v0, k1: v1, ...})`: the entries put one after the other. */
  function PutAll(m: OrdMap<Json>, entries: seq<(string, Json)>): (r: OrdMap<Json>)
    ensures Extends(m, r)
    ensures forall k :: k in r.vals <==> k in m.vals || exists e :: e in entries && e.0 == k
    decreases |entries|
  {
    if entries == [] then m
    else
      var init := PutAll(m, entries[..|entries| - 1]);
      var last := entries[|entries| - 1];
      ExtendsPut(init, last.0, last.1);
      ExtendsTransitive(m, init, init.Put(last.0, last.1));
      assert forall e :: e in entries ==> e in entries[..|entries| - 1] || e == last;
      init.Put(last.0, last.1)
  }

  /** Two updates in a row are one update with both entry lists. */
  lemma {:induction false} PutAllAppend(m: OrdMap<Json>, a: seq<(string, Json)>, b: seq<(string, Json)>)
    ensures PutAll(PutAll(m, a), b) == PutAll(m, a + b)
    decreases |b|
  {
    if b == [] {
      assert a + b == a;
    } else {
      assert (a + b)[..|a + b| - 1] == a + b[..|b| - 1];
      PutAllAppend(m, a, b[..|b| - 1]);
    }
  }

  /** Keys no entry names keep their values. */
  lemma {:induction false} PutAllOthers(m: OrdMap<Json>, entries: seq<(string, Json)>, k: string)
    requires k in m.vals
    requires forall e :: e in entries ==> e.0 != k
    ensures k in PutAll(m, entries).vals && PutAll(m, entries).vals[k] == m.vals[k]
    decreases |entries|
  {
    if entries != [] {
      PutAllOthers(m, entries[..|entries| - 1], k);
    }
  }

  /** With distinct keys, every entry's value is the one that ends up in the dict. */
  lemma {:induction false} PutAllValue(m: OrdMap<Json>, entries: seq<(string, Json)>, i: nat)
    requires i < |entries|
    requires forall a, b :: 0 <= a < b < |entries| ==> entries[a].0 != entries[b].0
    ensures entries[i].0 in PutAll(m, entries).vals && PutAll(m, entries).vals[entries[i].0] == entries[i].1
    decreases |entries|
  {
    if i < |entries| - 1 {
      PutAllValue(m, entries[..|entries| - 1], i);
    }
  }

  /** A dict built from a list of entries is those entries put into an empty dict. */
  lemma {:induction false} ObjOfPutAll(entries: seq<(string, Json)>)
    ensures ObjOf(entries) == PutAll(EmptyMap(), entries)
    decreases |entries|
  {
    if entries != [] {
      ObjOfPutAll(entries[..|entries| - 1]);
    }
  }

  /** An entry no later entry overwrites is what its key holds at the end. */
  lemma {:induction false} PutAllLast(m: OrdMap<Json>, entries: seq<(string, Json)>, i: nat)
    requires i < |entries|
    requires forall j :: i < j < |entries| ==> entries[j].0 != entries[i].0
    ensures entries[i].0 in PutAll(m, entries).vals && PutAll(m, entries).vals[entries[i].0] == entries[i].1
    decreases |entries|
  {
    if i < |entries| - 1 {
      PutAllLast(m, entries[..|entries| - 1], i);
    }
  }

  /** A template document (`appendContent`, `yaml_template`). */
  class TemplateDoc {
    var resources: OrdMap<Json>
    var parameters: OrdMap<Json>
    var outputs: Option<Json>

    constructor (resources: OrdMap<Json>, parameters: OrdMap<Json>)
      ensures this.resources == resources && this.parameters == parameters && this.outputs == None
    {
      this.resources := resources;
      this.parameters := parameters;
      this.outputs := None;
    }

    function Current(): Sections
      reads this
    {
      Sections(resources, parameters)
    }
  }
}
