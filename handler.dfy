/**
 * The two loops of the Lambda handler that drive the generators: the
 * discovery of each data set's data sources, which numbers the data sources
 * it adds (`ds_count`) so that their remapped parameters stay apart, and the
 * generation of the analysis's data sets in the dictionary's order.
 */
module Handler {
  import opened Results
  import opened Json
  import opened Text
  import opened QuickSight
  import opened DataSources
  import opened DataSets
  import opened Analyses
  import opened Documents
  import opened DataSourceGen
  import opened DataSourceProps
  import opened DataSetGen

  // The data sources a data set reads.

  /** The data source of one physical table: what follows the last "datasource/" of its DataSourceArn. */
  function TableDataSourceId(ptm: Json, t: string): (r: Result<string>)
    ensures r.Ok? <==> TableArn(ptm, t).Ok? && TableArn(ptm, t).value.JStr?
  {
    var arn :- TableArn(ptm, t);
    var s :- AsStr(arn);
    Ok(AfterLast(s, DataSourceSegment))
  }

  /**
   * The id is the tail of the ARN after its last "datasource/" (all of it
   * when there is none), and holds no "datasource/" itself.
   */
  lemma TableDataSourceIdShape(ptm: Json, t: string)
    requires TableDataSourceId(ptm, t).Ok?
    ensures var arn := TableArn(ptm, t).value.s;
      var id := TableDataSourceId(ptm, t).value;
      IsSuffix(id, arn) && !Occurs(id, DataSourceSegment)
      && (id == arn || EndsWith(arn[..|arn| - |id|], DataSourceSegment))
  {

  }

  /** The data-source ids of the tables, in table order; the first table that fails stops the scan. */
  function DataSourceIdsSpec(ptm: Json, tables: seq<string>): (r: Result<seq<string>>)
    ensures r.Ok? <==> forall i :: 0 <= i < |tables| ==> TableDataSourceId(ptm, tables[i]).Ok?
    decreases |tables|
  {
    if tables == [] then Ok([])
    else
      var init := tables[..|tables| - 1];
      var ids :- DataSourceIdsSpec(ptm, init);
      assert forall i :: 0 <= i < |init| ==> init[i] == tables[i];
      var id :- TableDataSourceId(ptm, tables[|tables| - 1]);
      Ok(ids + [id])
  }

  /** One id per table, each the data source of its table. */
  lemma {:induction false} DataSourceIdsValues(ptm: Json, tables: seq<string>)
    requires DataSourceIdsSpec(ptm, tables).Ok?
    ensures var ids := DataSourceIdsSpec(ptm, tables).value;
      |ids| == |tables| && forall i :: 0 <= i < |tables| ==> ids[i] == TableDataSourceId(ptm, tables[i]).value
    decreases |tables|
  {
    if tables != [] {
      var init := tables[..|tables| - 1];
      DataSourceIdsValues(ptm, init);
      var prior := DataSourceIdsSpec(ptm, init).value;
      assert DataSourceIdsSpec(ptm, tables).value == prior + [TableDataSourceId(ptm, tables[|tables| - 1]).value];
      assert forall i :: 0 <= i < |init| ==> init[i] == tables[i];
    }
  }

  /** A prefix of the tables that fails makes the whole scan fail the same way. */
  lemma {:induction false} IdsPrefixFails(ptm: Json, tables: seq<string>, n: nat)
    requires n <= |tables| && DataSourceIdsSpec(ptm, tables[..n]).Err?
    ensures DataSourceIdsSpec(ptm, tables) == DataSourceIdsSpec(ptm, tables[..n])
    decreases |tables| - n
  {
    if n < |tables| {
      assert tables[..n + 1][..n] == tables[..n];
      IdsPrefixFails(ptm, tables, n + 1);
    } else {
      assert tables[..n] == tables;
    }
  }

  /** The `datasources.append(datasourceId)` loop over the data set's tables. */
  method CollectDataSourceIds(ptm: Json, tables: seq<string>) returns (r: Result<seq<string>>)
    ensures r == DataSourceIdsSpec(ptm, tables)
  {
    var ids: seq<string> := [];
    var i := 0;
    while i < |tables|
      invariant 0 <= i <= |tables|
      invariant DataSourceIdsSpec(ptm, tables[..i]) == Ok(ids)
    {
      assert tables[..i + 1][..i] == tables[..i];
      var id := TableDataSourceId(ptm, tables[i]);
      if id.Err? {
        IdsPrefixFails(ptm, tables, i + 1);
        return Err(id.error);
      }
      ids := ids + [id.value];
      i := i + 1;
    }
    assert tables[..i] == tables;
    return Ok(ids);
  }

  /** `list(set(ids))`: every id once, in the order of first occurrence. */
  function Dedupe(ids: seq<string>): (r: seq<string>)
    ensures Distinct(r)
    ensures forall x :: x in r <==> x in ids
    ensures |r| <= |ids|
    decreases |ids|
  {
    if ids == [] then []
    else
      var init := ids[..|ids| - 1];
      var rest := Dedupe(init);
      var last := ids[|ids| - 1];
      assert forall x :: x in ids <==> x in init || x == last;
      if last in rest then rest else rest + [last]
  }

  // The discovery loop.

  /** What the loop has built so far: the sections, `ds_count`, and the helper records in order. */
  datatype Discovery = Discovery(sec: Sections, count: nat, defs: seq<Option<DataSourceDef>>)

  /**
   * The loop over a data set's distinct data-source ids: each one is
   * generated with the current count as its index, and the count moves on
   * only when its resource key was not in the document before.
   */
  function DiscoverSpec(sec: Sections, ids: seq<string>, count: nat, remap: bool, env: Env): (r: Result<Discovery>)
    ensures r.Ok? ==> |r.value.defs| == |ids| && r.value.count >= count
    decreases |ids|
  {
    if ids == [] then Ok(Discovery(sec, count, []))
    else
      var d :- DiscoverSpec(sec, ids[..|ids| - 1], count, remap, env);
      var id := ids[|ids| - 1];
      var isNew := DataSourceCfnId(id) !in d.sec.resources.vals;
      var (sec', def) :- DataSourceSpec(d.sec, id, d.count, remap, env);
      Ok(Discovery(sec', NextOrdinal(d.count, isNew), d.defs + [def]))
  }

  /** The data sources the loop added to the document, each with the index it was generated with. */
  ghost function Added(sec: Sections, ids: seq<string>, count: nat, remap: bool, env: Env): seq<(string, nat)>
    decreases |ids|
  {
    if ids == [] then []
    else
      var prior := Added(sec, ids[..|ids| - 1], count, remap, env);
      var id := ids[|ids| - 1];
      match DiscoverSpec(sec, ids[..|ids| - 1], count, remap, env)
      case Err(_) => prior
      case Ok(d) => if DataSourceCfnId(id) !in d.sec.resources.vals then prior + [(id, d.count)] else prior
  }

  /**
   * The count the loop ends with is the number of resources it appended:
   * the k-th appended resource belongs to the k-th added data source, which
   * was generated with index `count + k`.
   */
  lemma {:induction false} DiscoverNumbering(sec: Sections, ids: seq<string>, count: nat, remap: bool, env: Env,
                                             d: Discovery)
    requires DiscoverSpec(sec, ids, count, remap, env) == Ok(d)
    ensures var added := Added(sec, ids, count, remap, env);
      d.count == count + |added|
      && |d.sec.resources.keys| == |sec.resources.keys| + |added|
      && forall k :: 0 <= k < |added| ==>
           added[k].1 == count + k && added[k].0 in ids
           && d.sec.resources.keys[|sec.resources.keys| + k] == DataSourceCfnId(added[k].0)
    decreases |ids|
  {
    if ids != [] {
      var init := ids[..|ids| - 1];
      var d0 := DiscoverSpec(sec, init, count, remap, env).value;
      DiscoverNumbering(sec, init, count, remap, env, d0);
      DiscoverStep(sec, ids, count, remap, env);
      assert forall x :: x in init ==> x in ids;
    }
  }

  /** One turn of the loop: a data source whose key is new is appended and counted, any other changes nothing. */
  lemma DiscoverStep(sec: Sections, ids: seq<string>, count: nat, remap: bool, env: Env)
    requires ids != [] && DiscoverSpec(sec, ids, count, remap, env).Ok?
    ensures var init := ids[..|ids| - 1];
      var id := ids[|ids| - 1];
      DiscoverSpec(sec, init, count, remap, env).Ok?
      && var d0 := DiscoverSpec(sec, init, count, remap, env).value;
         var d := DiscoverSpec(sec, ids, count, remap, env).value;
         var prior := Added(sec, init, count, remap, env);
         if DataSourceCfnId(id) !in d0.sec.resources.vals then
           Added(sec, ids, count, remap, env) == prior + [(id, d0.count)] && d.count == d0.count + 1
           && d.sec.resources.keys == d0.sec.resources.keys + [DataSourceCfnId(id)]
         else
           Added(sec, ids, count, remap, env) == prior && d.count == d0.count && d.sec == d0.sec
  {
    var init := ids[..|ids| - 1];
    var id := ids[|ids| - 1];
    var d0 := DiscoverSpec(sec, init, count, remap, env).value;
    assert DiscoverSpec(sec, ids, count, remap, env).value.sec == DataSourceSpec(d0.sec, id, d0.count, remap, env).value.0;
  }

  /** One turn of the loop, as the data-source generator's step on what the earlier turns built. */
  lemma DiscoverLast(sec: Sections, ids: seq<string>, count: nat, remap: bool, env: Env, d: Discovery)
    requires ids != [] && DiscoverSpec(sec, ids, count, remap, env) == Ok(d)
    ensures var init := ids[..|ids| - 1];
      DiscoverSpec(sec, init, count, remap, env).Ok?
      && var d0 := DiscoverSpec(sec, init, count, remap, env).value;
         DataSourceSpec(d0.sec, ids[|ids| - 1], d0.count, remap, env).Ok?
         && d.sec == DataSourceSpec(d0.sec, ids[|ids| - 1], d0.count, remap, env).value.0
  {
  }

  /** Everything already in the document stays. */
  lemma {:induction false} DiscoverGrows(sec: Sections, ids: seq<string>, count: nat, remap: bool, env: Env,
                                         d: Discovery)
    requires DiscoverSpec(sec, ids, count, remap, env) == Ok(d)
    ensures Grows(sec, d.sec)
    decreases |ids|
  {
    if ids == [] {
      ExtendsReflexive(sec.resources);
      ExtendsReflexive(sec.parameters);
    } else {
      var init := ids[..|ids| - 1];
      var id := ids[|ids| - 1];
      DiscoverLast(sec, ids, count, remap, env, d);
      var d0 := DiscoverSpec(sec, init, count, remap, env).value;
      DiscoverGrows(sec, init, count, remap, env, d0);
      DataSourceSpecGrows(d0.sec, id, d0.count, remap, env);
      GrowsTransitive(sec, d0.sec, d.sec);
    }
  }

  /** Every id has its resource afterwards. */
  lemma {:induction false} DiscoverPlaces(sec: Sections, ids: seq<string>, count: nat, remap: bool, env: Env,
                                          d: Discovery)
    requires DiscoverSpec(sec, ids, count, remap, env) == Ok(d)
    ensures forall id :: id in ids ==> DataSourceCfnId(id) in d.sec.resources.vals
    decreases |ids|
  {
    if ids != [] {
      var init := ids[..|ids| - 1];
      var id := ids[|ids| - 1];
      DiscoverLast(sec, ids, count, remap, env, d);
      var d0 := DiscoverSpec(sec, init, count, remap, env).value;
      DiscoverPlaces(sec, init, count, remap, env, d0);
      DataSourceSpecGrows(d0.sec, id, d0.count, remap, env);
      assert forall x :: x in ids <==> x in init || x == id;
    }
  }

  /**
   * Two data sources the loop added were generated with different indices,
   * so whatever their engines, the parameters their remapped settings
   * declare have different names.
   */
  lemma DiscoveredParametersApart(sec: Sections, ids: seq<string>, count: nat, remap: bool, env: Env, d: Discovery,
                                  a: nat, b: nat, rec1: DataSourceRecord, rec2: DataSourceRecord)
    requires DiscoverSpec(sec, ids, count, remap, env) == Ok(d)
    requires a < b < |Added(sec, ids, count, remap, env)|
    ensures var added := Added(sec, ids, count, remap, env);
      added[a].1 < added[b].1
      && forall x, y :: x in EngineDecls(rec1, added[a].0, added[a].1) && y in EngineDecls(rec2, added[b].0, added[b].1)
                        ==> x.0 != y.0
  {
    var added := Added(sec, ids, count, remap, env);
    DiscoverNumbering(sec, ids, count, remap, env, d);
    RemapNamesDisjoint(rec1, added[a].0, added[a].1, rec2, added[b].0, added[b].1);
  }

  /** A prefix of the ids that fails makes the whole loop fail the same way. */
  lemma {:induction false} DiscoverPrefixFails(sec: Sections, ids: seq<string>, count: nat, remap: bool, env: Env,
                                               n: nat)
    requires n <= |ids| && DiscoverSpec(sec, ids[..n], count, remap, env).Err?
    ensures DiscoverSpec(sec, ids, count, remap, env) == DiscoverSpec(sec, ids[..n], count, remap, env)
    decreases |ids| - n
  {
    if n < |ids| {
      assert ids[..n + 1][..n] == ids[..n];
      DiscoverPrefixFails(sec, ids, count, remap, env, n + 1);
    } else {
      assert ids[..n] == ids;
    }
  }

  /** What the loop hands back: the final count and the helper records, or the error that stopped it. */
  function Summary(d: Result<Discovery>): Result<(nat, seq<Option<DataSourceDef>>)> {
    if d.Ok? then Ok((d.value.count, d.value.defs)) else Err(d.error)
  }

  /**
   * The `for datasourceId in datasources` loop: generates each data source
   * into the document and returns the final count and the helper records.
   */
  method DiscoverDataSources(doc: TemplateDoc, ids: seq<string>, count: nat, remap: bool, env: Env)
    returns (r: Result<(nat, seq<Option<DataSourceDef>>)>)
    modifies doc
    ensures var spec := DiscoverSpec(old(doc.Current()), ids, count, remap, env);
      r == Summary(spec) && (spec.Ok? ==> doc.Current() == spec.value.sec)
    ensures doc.outputs == old(doc.outputs)
  {
    ghost var sec0 := doc.Current();
    var n := count;
    var defs: seq<Option<DataSourceDef>> := [];
    var i := 0;
    while i < |ids|
      invariant 0 <= i <= |ids|
      invariant DiscoverSpec(sec0, ids[..i], count, remap, env) == Ok(Discovery(doc.Current(), n, defs))
      invariant doc.outputs == old(doc.outputs)
    {
      var next := DiscoverNext(doc, sec0, ids, i, count, remap, env, n, defs);
      if next.Err? {
        DiscoverPrefixFails(sec0, ids, count, remap, env, i + 1);
        return Err(next.error);
      }
      n, defs := next.value.0, next.value.1;
      i := i + 1;
    }
    assert ids[..i] == ids;
    return Ok((n, defs));
  }

  /** The loop over one more id: that id's data source generated on what the loop had built. */
  lemma DiscoverOneMore(sec: Sections, ids: seq<string>, i: nat, count: nat, remap: bool, env: Env, d: Discovery)
    requires i < |ids| && DiscoverSpec(sec, ids[..i], count, remap, env) == Ok(d)
    ensures var step := DataSourceSpec(d.sec, ids[i], d.count, remap, env);
      var isNew := DataSourceCfnId(ids[i]) !in d.sec.resources.vals;
      DiscoverSpec(sec, ids[..i + 1], count, remap, env)
      == if step.Err? then Err(step.error) else Ok(Discovery(step.value.0, NextOrdinal(d.count, isNew), d.defs + [step.value.1]))
  {
    assert ids[..i + 1][..i] == ids[..i];
  }

  /** One turn of the loop: the next id's data source generated with the current count as its index. */
  method DiscoverNext(doc: TemplateDoc, ghost sec0: Sections, ids: seq<string>, i: nat, count: nat, remap: bool,
                      env: Env, n: nat, defs: seq<Option<DataSourceDef>>)
    returns (r: Result<(nat, seq<Option<DataSourceDef>>)>)
    requires i < |ids| && DiscoverSpec(sec0, ids[..i], count, remap, env) == Ok(Discovery(doc.Current(), n, defs))
    modifies doc
    ensures r.Ok? ==> DiscoverSpec(sec0, ids[..i + 1], count, remap, env) == Ok(Discovery(doc.Current(), r.value.0, r.value.1))
    ensures r.Err? ==> DiscoverSpec(sec0, ids[..i + 1], count, remap, env) == Err(r.error)
    ensures doc.outputs == old(doc.outputs)
  {
    var id := ids[i];
    DiscoverOneMore(sec0, ids, i, count, remap, env, Discovery(doc.Current(), n, defs));
    var isNew := DataSourceCfnId(id) !in doc.resources.vals;
    var def := GenerateDataSource(doc, id, n, remap, env);
    if def.Err? {
      return Err(def.error);
    }
    return Ok((NextOrdinal(n, isNew), defs + [def.value]));
  }

  /** How a data set's discovery ends: the next `ds_count`, or the handler's early response. */
  datatype Outcome = Continue(count: nat) | Respond(statusCode: int)

  /**
   * An exception raised while a data source is generated: the handler
   * answers a ValueError with status 500 and lets any other propagate.
   */
  function Caught(e: Error): (r: Result<Outcome>)
    ensures r.Ok? <==> e.ValueError?
    ensures r.Ok? ==> r.value == Respond(500)
    ensures r.Err? ==> r.error == e
  {
    if e.ValueError? then Ok(Respond(500)) else Err(e)
  }

  /**
   * One data set's turn of the handler's outer loop from the table scan on:
   * the ids of its tables' data sources, each once, are generated into the
   * document; the helper records become the data set's dependingDSources.
   */
  method DiscoverForDataSet(doc: TemplateDoc, ds: DataSetDef, ptm: Json, count: nat, remap: bool, env: Env)
    returns (r: Result<Outcome>)
    modifies doc, ds
    ensures ds.Info() == old(ds.Info())
    ensures var ids := DataSourceIdsSpec(ptm, old(ds.physicalTableMap));
      (ids.Err? ==> r == Err(ids.error) && doc.Current() == old(doc.Current()))
      && (ids.Ok? ==>
            var spec := DiscoverSpec(old(doc.Current()), Dedupe(ids.value), count, remap, env);
            (spec.Ok? ==> r == Ok(Continue(spec.value.count)) && doc.Current() == spec.value.sec
                          && ds.dependingDataSources == spec.value.defs)
            && (spec.Err? ==> r == Caught(spec.error)))
    ensures doc.outputs == old(doc.outputs)
  {
    var ids := CollectDataSourceIds(ptm, ds.physicalTableMap);
    if ids.Err? {
      return Err(ids.error);
    }
    var found := DiscoverDataSources(doc, Dedupe(ids.value), count, remap, env);
    if found.Err? {
      return Caught(found.error);
    }
    ds.dependingDataSources := found.value.1;
    return Ok(Continue(found.value.0));
  }

  // The data-set loop.

  /** What `generateDataSetCFN` is handed for one entry of the analysis's dictionary. */
  datatype DataSetItem = DataSetItem(info: DataSetInfo, deps: seq<Option<DataSourceDef>>, tables: seq<string>)

  ghost function ItemOf(ds: DataSetDef): DataSetItem
    reads ds
  {
    DataSetItem(ds.Info(), ds.dependingDataSources, ds.physicalTableMap)
  }

  /** The items of the dictionary's entries, in key order. */
  ghost function ItemsOf(keys: seq<string>, vals: map<string, DataSetDef>): (items: seq<DataSetItem>)
    requires forall k :: k in keys ==> k in vals
    reads vals.Values
    ensures |items| == |keys|
    ensures forall i :: 0 <= i < |keys| ==> items[i] == ItemOf(vals[keys[i]])
    decreases |keys|
  {
    if keys == [] then [] else [ItemOf(vals[keys[0]])] + ItemsOf(keys[1..], vals)
  }

  /**
   * The data sets generated one after the other, each handed the ordinal the
   * previous one returned; the first that fails stops the loop.
   */
  function DataSetsSpec(rule: OrdinalRule, sec: Sections, items: seq<DataSetItem>, ord: nat, env: Env, fuel: nat)
    : (r: Result<(Sections, nat)>)
    ensures fuel == 0 && items != [] ==> r == Err(RecursionLimit)
    decreases |items|
  {
    if items == [] then Ok((sec, ord))
    else
      var (sec1, ord1) :- DataSetsSpec(rule, sec, items[..|items| - 1], ord, env, fuel);
      var it := items[|items| - 1];
      DataSetSpec(rule, sec1, it.info, it.deps, it.tables, ord1, env, fuel)
  }

  /** The loop only adds to the document and never moves the ordinal back. */
  lemma {:induction false} DataSetsSpecGrows(rule: OrdinalRule, sec: Sections, items: seq<DataSetItem>, ord: nat, env: Env, fuel: nat)
    requires DataSetsSpec(rule, sec, items, ord, env, fuel).Ok?
    ensures var r := DataSetsSpec(rule, sec, items, ord, env, fuel).value;
      Grows(sec, r.0) && r.1 >= ord && (rule == AsWritten ==> r.1 == ord)
    decreases |items|
  {
    if items == [] {
      ExtendsReflexive(sec.resources);
      ExtendsReflexive(sec.parameters);
    } else {
      var init := items[..|items| - 1];
      var it := items[|items| - 1];
      DataSetsSpecGrows(rule, sec, init, ord, env, fuel);
      var (sec1, ord1) := DataSetsSpec(rule, sec, init, ord, env, fuel).value;
      DataSetSpecGrows(rule, sec1, it.info, it.deps, it.tables, ord1, env, fuel);
      GrowsTransitive(sec, sec1, DataSetsSpec(rule, sec, items, ord, env, fuel).value.0);
    }
  }

  /** Afterwards every data set of the dictionary has its resource. */
  lemma {:induction false} DataSetsSpecPlaces(rule: OrdinalRule, sec: Sections, items: seq<DataSetItem>, ord: nat, env: Env, fuel: nat,
                                              k: nat)
    requires DataSetsSpec(rule, sec, items, ord, env, fuel).Ok? && k < |items|
    ensures DataSetCfnId(items[k].info.id) in DataSetsSpec(rule, sec, items, ord, env, fuel).value.0.resources.vals
    decreases |items|
  {
    var init := items[..|items| - 1];
    if k < |init| {
      DataSetsSpecPlaces(rule, sec, init, ord, env, fuel, k);
      assert items[k] == init[k];
      DataSetsStepKeeps(rule, sec, items, ord, env, fuel, DataSetCfnId(items[k].info.id));
    } else {
      DataSetsStepPlaces(rule, sec, items, ord, env, fuel);
    }
  }

  /** The last data set of the loop has its resource afterwards. */
  lemma DataSetsStepPlaces(rule: OrdinalRule, sec: Sections, items: seq<DataSetItem>, ord: nat, env: Env, fuel: nat)
    requires DataSetsSpec(rule, sec, items, ord, env, fuel).Ok? && items != []
    ensures DataSetCfnId(items[|items| - 1].info.id) in DataSetsSpec(rule, sec, items, ord, env, fuel).value.0.resources.vals
  {
    var it := items[|items| - 1];
    var (sec1, ord1) := DataSetsSpec(rule, sec, items[..|items| - 1], ord, env, fuel).value;
    DataSetSpecGrows(rule, sec1, it.info, it.deps, it.tables, ord1, env, fuel);
  }

  /** A resource there before the last data set is generated is there afterwards. */
  lemma DataSetsStepKeeps(rule: OrdinalRule, sec: Sections, items: seq<DataSetItem>, ord: nat, env: Env, fuel: nat, key: string)
    requires DataSetsSpec(rule, sec, items, ord, env, fuel).Ok? && items != []
    requires key in DataSetsSpec(rule, sec, items[..|items| - 1], ord, env, fuel).value.0.resources.vals
    ensures key in DataSetsSpec(rule, sec, items, ord, env, fuel).value.0.resources.vals
  {
    var it := items[|items| - 1];
    var (sec1, ord1) := DataSetsSpec(rule, sec, items[..|items| - 1], ord, env, fuel).value;
    DataSetSpecGrows(rule, sec1, it.info, it.deps, it.tables, ord1, env, fuel);
  }

  /** A prefix of the items that fails makes the whole loop fail the same way. */
  lemma {:induction false} DataSetsPrefixFails(rule: OrdinalRule, sec: Sections, items: seq<DataSetItem>, ord: nat, env: Env, fuel: nat,
                                               n: nat)
    requires n <= |items| && DataSetsSpec(rule, sec, items[..n], ord, env, fuel).Err?
    ensures DataSetsSpec(rule, sec, items, ord, env, fuel) == DataSetsSpec(rule, sec, items[..n], ord, env, fuel)
    decreases |items| - n
  {
    if n < |items| {
      assert items[..n + 1][..n] == items[..n];
      DataSetsPrefixFails(rule, sec, items, ord, env, fuel, n + 1);
    } else {
      assert items[..n] == items;
    }
  }

  /**
   * The `for datasetId in analysis.datasets.keys()` loop: every data set of
   * the analysis generated into the document, threading the data-source
   * ordinal from one to the next.
   */
  method GenerateDataSets(doc: TemplateDoc, rule: OrdinalRule, analysis: AnalysisDef, ord: nat, env: Env, fuel: nat)
    returns (r: Result<nat>)
    requires analysis.datasets.Valid()
    modifies doc
    ensures var spec := DataSetsSpec(rule, old(doc.Current()), old(ItemsOf(analysis.datasets.keys, analysis.datasets.vals)),
                                     ord, env, fuel);
      (r.Ok? <==> spec.Ok?) && (r.Ok? ==> r.value == spec.value.1 && doc.Current() == spec.value.0)
      && (r.Err? ==> r.error == spec.error)
    ensures doc.outputs == old(doc.outputs)
  {
    var keys := analysis.datasets.keys;
    var vals := analysis.datasets.vals;
    ghost var items := ItemsOf(keys, vals);
    ghost var sec0 := doc.Current();
    var o := ord;
    var i := 0;
    while i < |keys|
      invariant 0 <= i <= |keys|
      invariant DataSetsSpec(rule, sec0, items[..i], ord, env, fuel) == Ok((doc.Current(), o))
      invariant doc.outputs == old(doc.outputs)
    {
      var ds := vals[keys[i]];
      var next := GenerateNextDataSet(doc, rule, ds, sec0, items, i, ord, env, fuel, o);
      if next.Err? {
        DataSetsPrefixFails(rule, sec0, items, ord, env, fuel, i + 1);
        return Err(next.error);
      }
      o := next.value;
      i := i + 1;
    }
    assert items[..i] == items;
    return Ok(o);
  }

  /** One turn of the loop: the next data set generated with the ordinal the previous one returned. */
  method GenerateNextDataSet(doc: TemplateDoc, rule: OrdinalRule, ds: DataSetDef, ghost sec0: Sections, ghost items: seq<DataSetItem>,
                             i: nat, ord: nat, env: Env, fuel: nat, o: nat) returns (r: Result<nat>)
    requires i < |items| && items[i] == ItemOf(ds)
    requires DataSetsSpec(rule, sec0, items[..i], ord, env, fuel) == Ok((doc.Current(), o))
    modifies doc
    ensures r.Ok? ==> DataSetsSpec(rule, sec0, items[..i + 1], ord, env, fuel) == Ok((doc.Current(), r.value))
    ensures r.Err? ==> DataSetsSpec(rule, sec0, items[..i + 1], ord, env, fuel) == Err(r.error)
    ensures doc.outputs == old(doc.outputs)
  {
    assert items[..i + 1][..i] == items[..i];
    r := GenerateDataSet(doc, rule, ds, ds.dependingDataSources, ds.physicalTableMap, o, env, fuel);
  }
}
