// The data-source ordinal of the row-level-security generator, followed
// through the data-set loop: with the ordinal handed on as written, two
// permission data sources that are both new read the same parameters; with
// the corrected ordinal they read parameters of their own.

module RlsOrdinal {
  import opened Results
  import opened Json
  import opened QuickSight
  import opened DataSources
  import opened DataSets
  import opened Documents
  import opened DataSourceGen
  import opened DataSourceProps
  import opened DataSourceResource
  import opened DataSetGen
  import opened Handler

  /** Where an S3 data source's resource keeps its manifest's bucket and key. */
  const ResourceBucketPath: seq<string> := ["Properties", "DataSourceParameters"] + BucketPath
  const ResourceKeyPath: seq<string> := ["Properties", "DataSourceParameters"] + KeyPath

  /** The names of the two parameters a remapped S3 data source of index `index` declares. */
  function BucketName(index: nat): string { Indexed(S3.Name() + "DestinationBucket", index) }
  function KeyName(index: nat): string { Indexed(S3.Name() + "DestinationKey", index) }

  /** A remapped S3 resource reads its bucket and key from the parameters of its index. */
  lemma NewS3Refs(skel: Json, params: OrdMap<Json>, rec: DataSourceRecord, id: string, index: nat)
    requires rec.dsType == S3.Name() && NewResource(skel, params, rec, id, index, true).Ok?
    ensures var res := NewResource(skel, params, rec, id, index, true).value.0;
      Path(res, ResourceBucketPath) == Ok(Ref(BucketName(index)))
      && Path(res, ResourceKeyPath) == Ok(Ref(KeyName(index)))
  {
    var res := NewResource(skel, params, rec, id, index, true).value.0;
    var props0 := PropertiesOf(skel).value;
    NewResourceFields(skel, props0, params, rec, id, index, true);
    S3Parameters(rec, index, true);
    PathAppend(res, ["Properties", "DataSourceParameters"], BucketPath);
    PathAppend(res, ["Properties", "DataSourceParameters"], KeyPath);
  }

  /**
   * A new S3 data source generated with remapping: its resource reads the
   * bucket and key parameters of its index, and the Parameters declare both.
   */
  lemma NewS3Source(sec: Sections, id: string, index: nat, env: Env)
    requires id in env.account.dataSources && env.account.dataSources[id].dsType == S3.Name()
    requires DataSourceSpec(sec, id, index, true, env).Ok? && DataSourceCfnId(id) !in sec.resources.vals
    ensures var r := DataSourceSpec(sec, id, index, true, env).value.0;
      DataSourceCfnId(id) in r.resources.vals
      && Path(r.resources.vals[DataSourceCfnId(id)], ResourceBucketPath) == Ok(Ref(BucketName(index)))
      && Path(r.resources.vals[DataSourceCfnId(id)], ResourceKeyPath) == Ok(Ref(KeyName(index)))
      && BucketName(index) in r.parameters.vals && KeyName(index) in r.parameters.vals
  {
    var rec := env.account.dataSources[id];
    NewS3Refs(env.skeletons.dataSource, sec.parameters, rec, id, index);
    RemapDeclaresEverySetting(sec, id, index, env);
    assert RemapTable(rec)[0].0 == S3.Name() + "DestinationBucket";
    assert RemapTable(rec)[1].0 == S3.Name() + "DestinationKey";
  }

  /**
   * The resource under `key` reads its bucket and key from the S3 parameters
   * of `index`, and the Parameters declare both.
   */
  ghost predicate ReadsS3Parameters(sec: Sections, key: string, index: nat) {
    key in sec.resources.vals
    && Path(sec.resources.vals[key], ResourceBucketPath) == Ok(Ref(BucketName(index)))
    && Path(sec.resources.vals[key], ResourceKeyPath) == Ok(Ref(KeyName(index)))
    && BucketName(index) in sec.parameters.vals && KeyName(index) in sec.parameters.vals
  }

  /** What the generators keep, a data source's resource reading its parameters stays that way. */
  lemma ReadsS3ParametersKept(a: Sections, b: Sections, key: string, index: nat)
    requires ReadsS3Parameters(a, key, index) && !DataSetSideKey(key)
    requires KeepsSources(a.resources, b.resources) && Grows(a, b)
    ensures ReadsS3Parameters(b, key, index)
  {
  }

  /**
   * The permission data set's data source, generated with `index=datasourceOrd`
   * and REMAP_DS: when it is a new S3 source, the document afterwards holds
   * its resource reading the S3 parameters of the ordinal it was given.
   */
  lemma RlsWithSourceReads(rule: OrdinalRule, sec: Sections, target: string, rlsDef: Json, src: RlsSource,
                           ord: nat, env: Env, fuel: nat)
    requires DataSetSideKey(target) && src.record.physicalTableMap.JObj?
    requires RlsWithSource(rule, sec, target, rlsDef, src, ord, env, fuel).Ok?
    requires src.dataSourceId in env.account.dataSources && env.account.dataSources[src.dataSourceId].dsType == S3.Name()
    requires DataSourceCfnId(src.dataSourceId) !in sec.resources.vals && !DataSetSideKey(DataSourceCfnId(src.dataSourceId))
    ensures ReadsS3Parameters(RlsWithSource(rule, sec, target, rlsDef, src, ord, env, fuel).value.0,
                              DataSourceCfnId(src.dataSourceId), ord)
  {
    var key := DataSourceCfnId(src.dataSourceId);
    var isNew := key !in sec.resources.vals;
    var (sec1, dsDef) := DataSourceSpec(sec, src.dataSourceId, ord, true, env).value;
    NewS3Source(sec, src.dataSourceId, ord, env);
    var next := if rule == Corrected then NextOrdinal(ord, isNew) else ord;
    RlsRestKeeps(rule, sec1, target, rlsDef, src, dsDef, next, env, fuel);
    RlsRestGrows(rule, sec1, target, rlsDef, src, dsDef, next, env, fuel);
    ReadsS3ParametersKept(sec1, RlsRest(rule, sec1, target, rlsDef, src, dsDef, next, env, fuel).value.0, key, ord);
  }

  /**
   * Data set `dsId` asks for row-level security, and `src` is the permission
   * data set (with its data source) the generator looks up for it.
   */
  ghost predicate PermissionSource(env: Env, dsId: string, src: RlsSource) {
    DescribeDataSet(env.account, dsId).Ok?
    && RlsRequested(DescribeDataSet(env.account, dsId).value)
    && RlsDataSetId(DescribeDataSet(env.account, dsId).value.others.vals[RlsKey]).Ok?
    && RlsLookup(RlsDataSetId(DescribeDataSet(env.account, dsId).value.others.vals[RlsKey]).value, env) == Ok(src)
  }

  /**
   * `generateRowLevelPermissionDataSetCFN` for a permission data set whose
   * data source is a new S3 source: the source's resource reads the S3
   * parameters of the ordinal handed in. As written that ordinal comes back;
   * with the corrected ordinal a larger one does.
   */
  lemma RlsSpecReads(rule: OrdinalRule, sec: Sections, target: string, rlsDef: Json, ord: nat, env: Env, fuel: nat,
                     src: RlsSource)
    requires DataSetSideKey(target) && RlsSpec(rule, sec, target, rlsDef, ord, env, fuel).Ok?
    requires RlsDataSetId(rlsDef).Ok? && RlsLookup(RlsDataSetId(rlsDef).value, env) == Ok(src)
    requires src.dataSourceId in env.account.dataSources && env.account.dataSources[src.dataSourceId].dsType == S3.Name()
    requires DataSourceCfnId(src.dataSourceId) !in sec.resources.vals && !DataSetSideKey(DataSourceCfnId(src.dataSourceId))
    ensures var r := RlsSpec(rule, sec, target, rlsDef, ord, env, fuel).value;
      ReadsS3Parameters(r.0, DataSourceCfnId(src.dataSourceId), ord)
      && (rule == AsWritten ==> r.1 == ord) && (rule == Corrected ==> r.1 > ord)
  {
    assert RlsSpec(rule, sec, target, rlsDef, ord, env, fuel) == RlsWithSource(rule, sec, target, rlsDef, src, ord, env, fuel);
    RlsWithSourceReads(rule, sec, target, rlsDef, src, ord, env, fuel);
    RlsSpecGrows(rule, sec, target, rlsDef, ord, env, fuel);
  }

  /**
   * `generateDataSetCFN` on a data set under row-level security whose
   * permission data source is a new S3 source: the document afterwards holds
   * that source's resource reading the S3 parameters of the ordinal the data
   * set was handed. As written the data set returns that same ordinal; with
   * the corrected ordinal it returns a larger one.
   */
  lemma DataSetSpecReads(rule: OrdinalRule, sec: Sections, ds: DataSetInfo, deps: seq<Option<DataSourceDef>>,
                         tables: seq<string>, ord: nat, env: Env, fuel: nat, src: RlsSource)
    requires DataSetSpec(rule, sec, ds, deps, tables, ord, env, fuel).Ok? && PermissionSource(env, ds.id, src)
    requires src.dataSourceId in env.account.dataSources && env.account.dataSources[src.dataSourceId].dsType == S3.Name()
    requires DataSourceCfnId(src.dataSourceId) !in sec.resources.vals && !DataSetSideKey(DataSourceCfnId(src.dataSourceId))
    ensures var r := DataSetSpec(rule, sec, ds, deps, tables, ord, env, fuel).value;
      ReadsS3Parameters(r.0, DataSourceCfnId(src.dataSourceId), ord)
      && (rule == AsWritten ==> r.1 == ord) && (rule == Corrected ==> r.1 > ord)
  {
    var ret := DescribeDataSet(env.account, ds.id).value;
    var step := DataSetStep(sec.resources, ds, deps, tables, ret, env);
    if step.Ok? {
      DataSetStepKeeps(sec.resources, ds, deps, tables, ret, env);
    }
    DescribedReads(rule, sec, ds, ret, step, ord, env, fuel, src);
  }

  /** The same, once the data set is described and its step taken. */
  lemma DescribedReads(rule: OrdinalRule, sec: Sections, ds: DataSetInfo, ret: DataSetRecord, step: Result<OrdMap<Json>>,
                       ord: nat, env: Env, fuel: nat, src: RlsSource)
    requires fuel > 0 && DescribedSpec(rule, sec, ds, ret, step, ord, env, fuel).Ok?
    requires RlsRequested(ret) && RlsDataSetId(ret.others.vals[RlsKey]).Ok?
    requires RlsLookup(RlsDataSetId(ret.others.vals[RlsKey]).value, env) == Ok(src)
    requires step.Ok? ==> forall k :: k in step.value.vals && !DataSetSideKey(k) ==> k in sec.resources.vals
    requires src.dataSourceId in env.account.dataSources && env.account.dataSources[src.dataSourceId].dsType == S3.Name()
    requires DataSourceCfnId(src.dataSourceId) !in sec.resources.vals && !DataSetSideKey(DataSourceCfnId(src.dataSourceId))
    ensures var r := DescribedSpec(rule, sec, ds, ret, step, ord, env, fuel).value;
      ReadsS3Parameters(r.0, DataSourceCfnId(src.dataSourceId), ord)
      && (rule == AsWritten ==> r.1 == ord) && (rule == Corrected ==> r.1 > ord)
  {
    var sec1 := Sections(step.value, sec.parameters);
    RlsSpecReads(rule, sec1, DataSetCfnId(ds.id), ret.others.vals[RlsKey], ord, env, fuel - 1, src);
  }

  /** A further data set keeps what an earlier data source reads, and adds its own permission data source. */
  lemma NextDataSetReads(rule: OrdinalRule, sec: Sections, it: DataSetItem, ord: nat, env: Env, fuel: nat,
                         key: string, index: nat, src: RlsSource)
    requires DataSetSpec(rule, sec, it.info, it.deps, it.tables, ord, env, fuel).Ok?
    requires ReadsS3Parameters(sec, key, index) && !DataSetSideKey(key)
    requires PermissionSource(env, it.info.id, src)
    requires src.dataSourceId in env.account.dataSources && env.account.dataSources[src.dataSourceId].dsType == S3.Name()
    requires DataSourceCfnId(src.dataSourceId) !in sec.resources.vals && !DataSetSideKey(DataSourceCfnId(src.dataSourceId))
    ensures var r := DataSetSpec(rule, sec, it.info, it.deps, it.tables, ord, env, fuel).value;
      ReadsS3Parameters(r.0, key, index) && ReadsS3Parameters(r.0, DataSourceCfnId(src.dataSourceId), ord)
      && (rule == AsWritten ==> r.1 == ord) && (rule == Corrected ==> r.1 > ord)
  {
    var r := DataSetSpec(rule, sec, it.info, it.deps, it.tables, ord, env, fuel).value;
    DataSetSpecReads(rule, sec, it.info, it.deps, it.tables, ord, env, fuel, src);
    DataSetSpecKeeps(rule, sec, it.info, it.deps, it.tables, ord, env, fuel);
    DataSetSpecGrows(rule, sec, it.info, it.deps, it.tables, ord, env, fuel);
    ReadsS3ParametersKept(sec, r.0, key, index);
  }

  lemma PrefixOfPrefix(items: seq<DataSetItem>)
    requires |items| >= 2
    ensures items[..|items| - 1][..|items| - 2] == items[..|items| - 2]
  {
  }

  /** The loop's last round: the last data set, generated after all the others. */
  lemma LoopLast(rule: OrdinalRule, sec: Sections, items: seq<DataSetItem>, ord: nat, env: Env, fuel: nat,
                 before: Sections, ord1: nat)
    requires items != [] && DataSetsSpec(rule, sec, items[..|items| - 1], ord, env, fuel) == Ok((before, ord1))
    ensures var it := items[|items| - 1];
      DataSetsSpec(rule, sec, items, ord, env, fuel) == DataSetSpec(rule, before, it.info, it.deps, it.tables, ord1, env, fuel)
  {
  }

  /**
   * The handler's data-set loop, at its last two data sets, when each asks
   * for row-level security through a permission data set whose data source
   * is S3 and not yet in the document: afterwards both sources' resources
   * are there, the first reading the S3 parameters of the ordinal its data
   * set was handed and the second those of the ordinal the first returned.
   */
  lemma LastTwoRead(rule: OrdinalRule, sec: Sections, items: seq<DataSetItem>, ord: nat, env: Env, fuel: nat,
                    src1: RlsSource, src2: RlsSource)
    requires |items| >= 2 && DataSetsSpec(rule, sec, items, ord, env, fuel).Ok?
    requires DataSetsSpec(rule, sec, items[..|items| - 2], ord, env, fuel).Ok?
    requires DataSetsSpec(rule, sec, items[..|items| - 1], ord, env, fuel).Ok?
    requires PermissionSource(env, items[|items| - 2].info.id, src1) && PermissionSource(env, items[|items| - 1].info.id, src2)
    requires src1.dataSourceId in env.account.dataSources && env.account.dataSources[src1.dataSourceId].dsType == S3.Name()
    requires src2.dataSourceId in env.account.dataSources && env.account.dataSources[src2.dataSourceId].dsType == S3.Name()
    requires !DataSetSideKey(DataSourceCfnId(src1.dataSourceId)) && !DataSetSideKey(DataSourceCfnId(src2.dataSourceId))
    requires DataSourceCfnId(src1.dataSourceId) !in DataSetsSpec(rule, sec, items[..|items| - 2], ord, env, fuel).value.0.resources.vals
    requires DataSourceCfnId(src2.dataSourceId) !in DataSetsSpec(rule, sec, items[..|items| - 1], ord, env, fuel).value.0.resources.vals
    ensures var first := DataSetsSpec(rule, sec, items[..|items| - 2], ord, env, fuel).value.1;
      var second := DataSetsSpec(rule, sec, items[..|items| - 1], ord, env, fuel).value.1;
      var fin := DataSetsSpec(rule, sec, items, ord, env, fuel).value.0;
      ReadsS3Parameters(fin, DataSourceCfnId(src1.dataSourceId), first)
      && ReadsS3Parameters(fin, DataSourceCfnId(src2.dataSourceId), second)
      && (rule == AsWritten ==> first == ord && second == ord)
      && (rule == Corrected ==> second > first)
  {
    var pre, init := items[..|items| - 2], items[..|items| - 1];
    PrefixOfPrefix(items);
    var (sec0, first) := DataSetsSpec(rule, sec, pre, ord, env, fuel).value;
    var (sec1, second) := DataSetsSpec(rule, sec, init, ord, env, fuel).value;
    var a, b := items[|items| - 2], items[|items| - 1];
    assert init[|init| - 1] == a;
    LoopLast(rule, sec, init, ord, env, fuel, sec0, first);
    LoopLast(rule, sec, items, ord, env, fuel, sec1, second);
    DataSetsSpecGrows(rule, sec, pre, ord, env, fuel);
    DataSetSpecReads(rule, sec0, a.info, a.deps, a.tables, first, env, fuel, src1);
    NextDataSetReads(rule, sec1, b, second, env, fuel, DataSourceCfnId(src1.dataSourceId), first, src2);
  }

  /**
   * As written: the loop hands every data set the same ordinal, and the
   * permission data-source generator hands it on unchanged, so the last two
   * data sets' new S3 permission sources, two different resources, both read
   * the one pair of S3 parameters of that ordinal.
   */
  lemma RlsOrdinalCollides(sec: Sections, items: seq<DataSetItem>, ord: nat, env: Env, fuel: nat,
                           src1: RlsSource, src2: RlsSource)
    requires |items| >= 2 && DataSetsSpec(AsWritten, sec, items, ord, env, fuel).Ok?
    requires DataSetsSpec(AsWritten, sec, items[..|items| - 2], ord, env, fuel).Ok?
    requires DataSetsSpec(AsWritten, sec, items[..|items| - 1], ord, env, fuel).Ok?
    requires PermissionSource(env, items[|items| - 2].info.id, src1) && PermissionSource(env, items[|items| - 1].info.id, src2)
    requires src1.dataSourceId in env.account.dataSources && env.account.dataSources[src1.dataSourceId].dsType == S3.Name()
    requires src2.dataSourceId in env.account.dataSources && env.account.dataSources[src2.dataSourceId].dsType == S3.Name()
    requires !DataSetSideKey(DataSourceCfnId(src1.dataSourceId)) && !DataSetSideKey(DataSourceCfnId(src2.dataSourceId))
    requires DataSourceCfnId(src1.dataSourceId) !in DataSetsSpec(AsWritten, sec, items[..|items| - 2], ord, env, fuel).value.0.resources.vals
    requires DataSourceCfnId(src2.dataSourceId) !in DataSetsSpec(AsWritten, sec, items[..|items| - 1], ord, env, fuel).value.0.resources.vals
    ensures var fin := DataSetsSpec(AsWritten, sec, items, ord, env, fuel).value.0;
      DataSourceCfnId(src1.dataSourceId) != DataSourceCfnId(src2.dataSourceId)
      && ReadsS3Parameters(fin, DataSourceCfnId(src1.dataSourceId), ord)
      && ReadsS3Parameters(fin, DataSourceCfnId(src2.dataSourceId), ord)
  {
    LastTwoRead(AsWritten, sec, items, ord, env, fuel, src1, src2);
    var mid := DataSetsSpec(AsWritten, sec, items[..|items| - 1], ord, env, fuel).value.0;
    assert DataSourceCfnId(src1.dataSourceId) in mid.resources.vals by {
      PrefixOfPrefix(items);
      var pre := items[..|items| - 2];
      var before := DataSetsSpec(AsWritten, sec, pre, ord, env, fuel).value;
      var a := items[|items| - 2];
      assert items[..|items| - 1][|items| - 2] == a;
      LoopLast(AsWritten, sec, items[..|items| - 1], ord, env, fuel, before.0, before.1);
      DataSetSpecReads(AsWritten, before.0, a.info, a.deps, a.tables, before.1, env, fuel, src1);
    }
  }

  /**
   * With the corrected ordinal, the second new S3 permission source reads
   * S3 parameters of its own: neither of its names is one the first reads.
   */
  lemma RlsOrdinalSeparates(sec: Sections, items: seq<DataSetItem>, ord: nat, env: Env, fuel: nat,
                            src1: RlsSource, src2: RlsSource)
    requires |items| >= 2 && DataSetsSpec(Corrected, sec, items, ord, env, fuel).Ok?
    requires DataSetsSpec(Corrected, sec, items[..|items| - 2], ord, env, fuel).Ok?
    requires DataSetsSpec(Corrected, sec, items[..|items| - 1], ord, env, fuel).Ok?
    requires PermissionSource(env, items[|items| - 2].info.id, src1) && PermissionSource(env, items[|items| - 1].info.id, src2)
    requires src1.dataSourceId in env.account.dataSources && env.account.dataSources[src1.dataSourceId].dsType == S3.Name()
    requires src2.dataSourceId in env.account.dataSources && env.account.dataSources[src2.dataSourceId].dsType == S3.Name()
    requires !DataSetSideKey(DataSourceCfnId(src1.dataSourceId)) && !DataSetSideKey(DataSourceCfnId(src2.dataSourceId))
    requires DataSourceCfnId(src1.dataSourceId) !in DataSetsSpec(Corrected, sec, items[..|items| - 2], ord, env, fuel).value.0.resources.vals
    requires DataSourceCfnId(src2.dataSourceId) !in DataSetsSpec(Corrected, sec, items[..|items| - 1], ord, env, fuel).value.0.resources.vals
    ensures var first := DataSetsSpec(Corrected, sec, items[..|items| - 2], ord, env, fuel).value.1;
      var second := DataSetsSpec(Corrected, sec, items[..|items| - 1], ord, env, fuel).value.1;
      var fin := DataSetsSpec(Corrected, sec, items, ord, env, fuel).value.0;
      ReadsS3Parameters(fin, DataSourceCfnId(src1.dataSourceId), first)
      && ReadsS3Parameters(fin, DataSourceCfnId(src2.dataSourceId), second)
      && BucketName(first) != BucketName(second) && KeyName(first) != KeyName(second)
  {
    LastTwoRead(Corrected, sec, items, ord, env, fuel, src1, src2);
    var first := DataSetsSpec(Corrected, sec, items[..|items| - 2], ord, env, fuel).value.1;
    var second := DataSetsSpec(Corrected, sec, items[..|items| - 1], ord, env, fuel).value.1;
    if BucketName(first) == BucketName(second) {
      IndexedInjective(S3.Name() + "DestinationBucket", first, second);
    }
    if KeyName(first) == KeyName(second) {
      IndexedInjective(S3.Name() + "DestinationKey", first, second);
    }
  }
}
