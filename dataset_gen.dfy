/**
 * `generateDataSetCFN` and `generateRowLevelPermissionDataSetCFN`: one
 * AWS::QuickSight::DataSet resource keyed "DSet<id>", depending on its data
 * sources, with every physical table pointed at the data source of the
 * target account, and, for a data set under row-level security, the
 * permission data set and its data source generated first.
 */
module DataSetGen {
  import opened Results
  import opened Json
  import opened Text
  import opened QuickSight
  import opened DataSources
  import opened DataSets
  import opened Documents
  import opened DataSourceGen
  import opened DataSourceProps
  import opened ScheduleGen

  /** The properties copied from the source data set when present and truthy. */
  const OptionalProps: seq<string> :=
    ["ColumnGroups", "FieldFolders", "RowLevelPermissionTagConfiguration", "ColumnLevelPermissionRules",
     "DataSetUsageConfiguration", "DatasetParameters"]

  const DataSourceArnPrefix: string := "arn:aws:quicksight:${AWS::Region}:${AWS::AccountId}:datasource/"
  const DataSetArnPrefix: string := "arn:aws:quicksight:${AWS::Region}:${AWS::AccountId}:dataset/"
  const NoCfnIdMessage: string := "'dict' object has no attribute 'CFNId'"
  const RlsKey: string := "RowLevelPermissionDataSet"

  // The resource's DependsOn list.

  /**
   * `[d.CFNId for d in datasourceObjs]`: a data source the generator
   * returned no helper record for (the `{}` placeholder) has no CFNId.
   */
  function DependsOnSpec(deps: seq<Option<DataSourceDef>>): (r: Result<seq<Json>>)
    ensures r.Ok? <==> forall i :: 0 <= i < |deps| ==> deps[i].Some?
    ensures r.Ok? ==> |r.value| == |deps| && forall i :: 0 <= i < |deps| ==> r.value[i] == JStr(deps[i].value.cfnId)
    ensures r.Err? ==> r.error == AttributeError(NoCfnIdMessage)
  {
    if deps == [] then Ok([])
    else if deps[0].None? then Err(AttributeError(NoCfnIdMessage))
    else
      var rest :- DependsOnSpec(deps[1..]);
      assert forall i :: 1 <= i < |deps| ==> deps[i] == deps[1..][i - 1];
      Ok([JStr(deps[0].value.cfnId)] + rest)
  }

  /** The `dependingDSources` loop. */
  method DependsOnList(deps: seq<Option<DataSourceDef>>) returns (r: Result<seq<Json>>)
    ensures r == DependsOnSpec(deps)
  {
    var acc: seq<Json> := [];
    var i := 0;
    while i < |deps|
      invariant 0 <= i <= |deps| && |acc| == i
      invariant forall j :: 0 <= j < i ==> deps[j].Some? && acc[j] == JStr(deps[j].value.cfnId)
    {
      if deps[i].None? {
        return Err(AttributeError(NoCfnIdMessage));
      }
      acc := acc + [JStr(deps[i].value.cfnId)];
      i := i + 1;
    }
    assert DependsOnSpec(deps).Ok?;
    assert acc == DependsOnSpec(deps).value;
    return Ok(acc);
  }

  // The physical tables' DataSourceArn.

  /** `ptm[t][<last key>]['DataSourceArn']`. */
  function TableArn(ptm: Json, t: string): Result<Json> {
    var entry :- Field(ptm, t);
    var child :- LastKey(entry);
    var inner :- Field(entry, child);
    Field(inner, "DataSourceArn")
  }

  /** The `Fn::Sub` that names the data source with this id in the target account. */
  function DataSourceArnSub(arn: string): (j: Json)
    ensures j == Sub(DataSourceArnPrefix + AfterLast(arn, "/"))
    ensures IsSuffix(AfterLast(arn, "/"), arn) && '/' !in AfterLast(arn, "/")
  {
    var id := AfterLast(arn, "/");
    CharOccurs(id, '/');
    Sub(DataSourceArnPrefix + id)
  }

  /** One iteration of the table loop: the table's data-source ARN becomes a Sub. */
  function RewriteTable(ptm: Json, t: string): Result<Json> {
    var arn :- TableArn(ptm, t);
    var text :- AsStr(arn);
    Ok(SetTableArn(ptm, t, DataSourceArnSub(text)))
  }

  /** `ptm[t][<last key>]['DataSourceArn'] = v`, for a table whose ARN is there. */
  function SetTableArn(ptm: Json, t: string, v: Json): Json
    requires TableArn(ptm, t).Ok?
  {
    var entry := ptm.obj.vals[t];
    var child := entry.obj.keys[|entry.obj.keys| - 1];
    var inner := entry.obj.vals[child];
    JObj(ptm.obj.Put(t, JObj(entry.obj.Put(child, JObj(inner.obj.Put("DataSourceArn", v))))))
  }

  /** Setting a table's data-source ARN changes that and nothing else. */
  lemma SetTableArnShape(ptm: Json, t: string, v: Json)
    requires TableArn(ptm, t).Ok?
    ensures TableArn(SetTableArn(ptm, t, v), t) == Ok(v)
    ensures forall x :: x != t ==> Field(SetTableArn(ptm, t, v), x) == Field(ptm, x)
  {
    var entry := ptm.obj.vals[t];
    var child := entry.obj.keys[|entry.obj.keys| - 1];
    var entry' := JObj(entry.obj.Put(child, JObj(entry.obj.vals[child].obj.Put("DataSourceArn", v))));
    assert Field(SetTableArn(ptm, t, v), t) == Ok(entry');
    assert LastKey(entry') == Ok(child);
  }

  /** One iteration makes the table's data-source ARN a Sub of the ARN it held. */
  lemma RewriteTableArn(ptm: Json, t: string)
    requires RewriteTable(ptm, t).Ok?
    ensures TableArn(ptm, t).Ok? && TableArn(ptm, t).value.JStr?
    ensures TableArn(RewriteTable(ptm, t).value, t) == Ok(DataSourceArnSub(TableArn(ptm, t).value.s))
    ensures forall x :: x != t ==> Field(RewriteTable(ptm, t).value, x) == Field(ptm, x)
  {
    SetTableArnShape(ptm, t, DataSourceArnSub(TableArn(ptm, t).value.s));
  }

  /** One iteration fails when the table's data-source ARN is there but not a string. */
  lemma RewriteTableRejects(ptm: Json, t: string)
    requires TableArn(ptm, t).Ok? && !TableArn(ptm, t).value.JStr?
    ensures RewriteTable(ptm, t).Err?
  {
  }

  /** The table loop, first table to last. */
  function RewriteTablesSpec(ptm: Json, tables: seq<string>): Result<Json>
    decreases |tables|
  {
    if tables == [] then Ok(ptm)
    else
      var ptm' :- RewriteTable(ptm, tables[0]);
      RewriteTablesSpec(ptm', tables[1..])
  }

  /** A data-source ARN rewritten to the target account. */
  predicate PointsToTarget(j: Json) {
    j.JObj? && j.obj.keys == ["Fn::Sub"] && "Fn::Sub" in j.obj.vals && j.obj.vals["Fn::Sub"].JStr?
    && var s := j.obj.vals["Fn::Sub"].s;
    |s| >= |DataSourceArnPrefix| && s[..|DataSourceArnPrefix|] == DataSourceArnPrefix
    && '/' !in s[|DataSourceArnPrefix|..]
  }

  lemma DataSourceArnSubPoints(arn: string)
    ensures PointsToTarget(DataSourceArnSub(arn))
  {
    var s := DataSourceArnPrefix + AfterLast(arn, "/");
    assert s[|DataSourceArnPrefix|..] == AfterLast(arn, "/");
  }

  /** After the loop every table not listed is as it was. */
  lemma {:induction false} RewriteTablesKeep(ptm: Json, tables: seq<string>)
    requires RewriteTablesSpec(ptm, tables).Ok?
    ensures forall x :: x !in tables ==> Field(RewriteTablesSpec(ptm, tables).value, x) == Field(ptm, x)
    decreases |tables|
  {
    if tables != [] {
      var t := tables[0];
      var ptm' := RewriteTable(ptm, t).value;
      RewriteTableArn(ptm, t);
      RewriteTablesKeep(ptm', tables[1..]);
      forall x | x !in tables
        ensures Field(RewriteTablesSpec(ptm, tables).value, x) == Field(ptm, x)
      {
        assert x !in tables[1..] && x != t;
      }
    }
  }

  /**
   * After the loop every listed table's data-source ARN is a Sub naming a
   * data source of the target account.
   */
  lemma {:induction false} RewriteTablesPoint(ptm: Json, tables: seq<string>)
    requires RewriteTablesSpec(ptm, tables).Ok?
    ensures var r := RewriteTablesSpec(ptm, tables).value;
      forall i :: 0 <= i < |tables| ==> TableArn(r, tables[i]).Ok? && PointsToTarget(TableArn(r, tables[i]).value)
    decreases |tables|
  {
    if tables != [] {
      var t := tables[0];
      var ptm' := RewriteTable(ptm, t).value;
      var r := RewriteTablesSpec(ptm', tables[1..]).value;
      assert RewriteTablesSpec(ptm, tables).value == r;
      RewriteTablesPoint(ptm', tables[1..]);
      if t !in tables[1..] {
        RewriteTableArn(ptm, t);
        DataSourceArnSubPoints(TableArn(ptm, t).value.s);
        RewriteTablesKeep(ptm', tables[1..]);
        TableArnOfField(r, ptm', t);
      }
      forall i | 0 <= i < |tables|
        ensures TableArn(r, tables[i]).Ok? && PointsToTarget(TableArn(r, tables[i]).value)
      {
        if i > 0 {
          assert tables[i] == tables[1..][i - 1];
        } else if t in tables[1..] {
          var k :| 0 <= k < |tables[1..]| && tables[1..][k] == t;
        }
      }
    }
  }

  /** A table's data-source ARN depends on nothing but the table's own entry. */
  lemma TableArnOfField(a: Json, b: Json, t: string)
    requires Field(a, t) == Field(b, t)
    ensures TableArn(a, t) == TableArn(b, t)
  {
  }

  /** The `for table in tableMap` loop. */
  method RewriteTables(ptm: Json, tables: seq<string>) returns (r: Result<Json>)
    ensures r == RewriteTablesSpec(ptm, tables)
  {
    var cur := ptm;
    var i := 0;
    while i < |tables|
      invariant 0 <= i <= |tables|
      invariant RewriteTablesSpec(ptm, tables) == RewriteTablesSpec(cur, tables[i..])
    {
      assert tables[i..][0] == tables[i] && tables[i..][1..] == tables[i + 1..];
      var step := RewriteTable(cur, tables[i]);
      if step.Err? {
        return Err(step.error);
      }
      cur := step.value;
      i := i + 1;
    }
    return Ok(cur);
  }

  // The optional properties.

  /** Whether the source data set carries a truthy entry under this key. */
  predicate Carries(others: OrdMap<Json>, k: string) {
    k in others.vals && Truthy(others.vals[k])
  }

  /** The OPTIONAL_PROPS loop over `names`, first to last. */
  function CopyOptionalSpec(props: OrdMap<Json>, others: OrdMap<Json>, names: seq<string>): OrdMap<Json>
    decreases |names|
  {
    if names == [] then props
    else
      var k := names[0];
      var props' := if Carries(others, k) then props.Put(k, others.vals[k]) else props;
      CopyOptionalSpec(props', others, names[1..])
  }

  /**
   * The loop keeps every entry it finds, adds exactly the listed keys the
   * source data set carries, and takes their values from the source.
   */
  lemma {:induction false} CopyOptionalShape(props: OrdMap<Json>, others: OrdMap<Json>, names: seq<string>)
    ensures var r := CopyOptionalSpec(props, others, names);
      forall k :: k in r.vals <==> k in props.vals || (k in names && Carries(others, k))
    ensures var r := CopyOptionalSpec(props, others, names);
      forall k :: k in r.vals ==> r.vals[k] == if k in names && Carries(others, k) then others.vals[k] else props.vals[k]
    decreases |names|
  {
    if names != [] {
      var k := names[0];
      var props' := if Carries(others, k) then props.Put(k, others.vals[k]) else props;
      CopyOptionalShape(props', others, names[1..]);
      assert forall x :: x in names <==> x == k || x in names[1..];
    }
  }

  /** The `for property in OPTIONAL_PROPS` loop. */
  method CopyOptional(props: OrdMap<Json>, others: OrdMap<Json>) returns (r: OrdMap<Json>)
    ensures r == CopyOptionalSpec(props, others, OptionalProps)
  {
    r := props;
    var i := 0;
    while i < |OptionalProps|
      invariant 0 <= i <= |OptionalProps|
      invariant CopyOptionalSpec(props, others, OptionalProps) == CopyOptionalSpec(r, others, OptionalProps[i..])
    {
      var k := OptionalProps[i];
      assert OptionalProps[i..][0] == k && OptionalProps[i..][1..] == OptionalProps[i + 1..];
      if k in others.vals && Truthy(others.vals[k]) {
        r := r.Put(k, others.vals[k]);
      }
      i := i + 1;
    }
  }

  // The data-set resource.

  /** The skeleton's Properties with the source data set's identity and tables. */
  function FilledProperties(props: OrdMap<Json>, ds: DataSetInfo, ret: DataSetRecord, ptm: Json): (r: OrdMap<Json>)
    ensures "PhysicalTableMap" in r.vals && r.vals["PhysicalTableMap"] == ptm
    ensures "ImportMode" in r.vals && r.vals["ImportMode"] == JStr(ds.importMode.Name())
    ensures "DataSetId" in r.vals && r.vals["DataSetId"] == JStr(ds.id)
    ensures "Name" in r.vals && r.vals["Name"] == JStr(ret.name)
    ensures "LogicalTableMap" in r.vals && r.vals["LogicalTableMap"] == ret.logicalTableMap
  {
    props.Put("DataSetId", JStr(ds.id)).Put("Name", JStr(ret.name)).Put("PhysicalTableMap", ptm)
      .Put("LogicalTableMap", ret.logicalTableMap).Put("ImportMode", JStr(ds.importMode.Name()))
  }

  /** A key shorter than every optional property name, or of a length none of them has, is not one of them. */
  lemma NotOptional(k: string)
    requires |k| < 12 || 12 < |k| < 17
    ensures k !in OptionalProps
  {
    forall i | 0 <= i < |OptionalProps|
      ensures OptionalProps[i] != k
    {
      assert |OptionalProps[i]| == 12 || |OptionalProps[i]| >= 17;
    }
  }

  /** The data set's Properties once the tables are rewritten and the optional entries copied. */
  function DataSetProperties(props: OrdMap<Json>, ds: DataSetInfo, ret: DataSetRecord, ptm: Json): (r: OrdMap<Json>)
    ensures "PhysicalTableMap" in r.vals && r.vals["PhysicalTableMap"] == ptm
    ensures "ImportMode" in r.vals && r.vals["ImportMode"] == JStr(ds.importMode.Name())
    ensures "DataSetId" in r.vals && r.vals["DataSetId"] == JStr(ds.id)
    ensures "Name" in r.vals && r.vals["Name"] == JStr(ret.name)
    ensures "LogicalTableMap" in r.vals && r.vals["LogicalTableMap"] == ret.logicalTableMap
    ensures forall k :: k in OptionalProps && Carries(ret.others, k) ==> k in r.vals && r.vals[k] == ret.others.vals[k]
  {
    var filled := FilledProperties(props, ds, ret, ptm);
    var r := CopyOptionalSpec(filled, ret.others, OptionalProps);
    CopyOptionalShape(filled, ret.others, OptionalProps);
    NotOptional("PhysicalTableMap");
    NotOptional("ImportMode");
    NotOptional("DataSetId");
    NotOptional("Name");
    NotOptional("LogicalTableMap");
    r
  }

  /** The skeleton with its Properties and DependsOn set. */
  function DataSetResource(skel: Json, props: OrdMap<Json>, depends: seq<Json>): (r: Json)
    requires skel.JObj?
    ensures Field(r, "Properties") == Ok(JObj(props)) && Field(r, "DependsOn") == Ok(JList(depends))
  {
    JObj(skel.obj.Put("Properties", JObj(props)).Put("DependsOn", JList(depends)))
  }

  /** Whether the source data set applies row-level security. */
  predicate RlsRequested(ret: DataSetRecord) {
    Carries(ret.others, RlsKey)
  }

  /** What the data-set generator computes before writing anything. */
  datatype Prepared = Prepared(props: OrdMap<Json>, depends: seq<Json>, ptm: Json)

  /** The skeleton's Properties, the DependsOn list and the rewritten PhysicalTableMap, in that order. */
  function PrepareSpec(deps: seq<Option<DataSourceDef>>, tables: seq<string>, ret: DataSetRecord, env: Env)
    : (r: Result<Prepared>)
    ensures r.Ok? <==> PropertiesOf(env.skeletons.dataSet).Ok? && DependsOnSpec(deps).Ok?
                       && RewriteTablesSpec(ret.physicalTableMap, tables).Ok?
    ensures r.Ok? ==> r.value.props == PropertiesOf(env.skeletons.dataSet).value && env.skeletons.dataSet.JObj?
    ensures r.Ok? ==> r.value.depends == DependsOnSpec(deps).value
    ensures r.Ok? ==> r.value.ptm == RewriteTablesSpec(ret.physicalTableMap, tables).value
  {
    var props :- PropertiesOf(env.skeletons.dataSet);
    var depends :- DependsOnSpec(deps);
    var ptm :- RewriteTablesSpec(ret.physicalTableMap, tables);
    Ok(Prepared(props, depends, ptm))
  }

  /** The three computations, with the loops of the source. */
  method Prepare(deps: seq<Option<DataSourceDef>>, tables: seq<string>, ret: DataSetRecord, env: Env)
    returns (r: Result<Prepared>)
    ensures r == PrepareSpec(deps, tables, ret, env)
  {
    var props := PropertiesOf(env.skeletons.dataSet);
    if props.Err? {
      return Err(props.error);
    }
    var depends := DependsOnList(deps);
    if depends.Err? {
      return Err(depends.error);
    }
    var ptm := RewriteTables(ret.physicalTableMap, tables);
    if ptm.Err? {
      return Err(ptm.error);
    }
    return Ok(Prepared(props.value, depends.value, ptm.value));
  }

  /**
   * The data set's resource before any row-level security is applied: the
   * Resources section with the resource and the refresh schedules added.
   */
  function DataSetStep(res: OrdMap<Json>, ds: DataSetInfo, deps: seq<Option<DataSourceDef>>, tables: seq<string>,
                       ret: DataSetRecord, env: Env): Result<OrdMap<Json>>
  {
    var p :- PrepareSpec(deps, tables, ret, env);
    var skel := env.skeletons.dataSet;
    var key := DataSetCfnId(ds.id);
    var filled := FilledProperties(p.props, ds, ret, p.ptm);
    var res2 :- RefreshSchedulesSpec(res.Put(key, DataSetResource(skel, filled, p.depends)), ds, env);
    Ok(res2.Put(key, DataSetResource(skel, CopyOptionalSpec(filled, ret.others, OptionalProps), p.depends)))
  }

  /** DataSetStep written out. */
  lemma DataSetStepIs(res: OrdMap<Json>, ds: DataSetInfo, deps: seq<Option<DataSourceDef>>, tables: seq<string>,
                      ret: DataSetRecord, env: Env)
    ensures var p := PrepareSpec(deps, tables, ret, env);
      var step := DataSetStep(res, ds, deps, tables, ret, env);
      (p.Err? ==> step == Err(p.error))
      && (p.Ok? ==>
            var skel := env.skeletons.dataSet;
            var key := DataSetCfnId(ds.id);
            var filled := FilledProperties(p.value.props, ds, ret, p.value.ptm);
            var sched := RefreshSchedulesSpec(res.Put(key, DataSetResource(skel, filled, p.value.depends)), ds, env);
            (sched.Err? ==> step == Err(sched.error))
            && (sched.Ok? ==> step == Ok(sched.value.Put(key, DataSetResource(skel, CopyOptionalSpec(filled, ret.others, OptionalProps), p.value.depends)))))
  {
  }

  /**
   * What the data-set step leaves: the new resource under `DSet`+id with the
   * skeleton's Properties filled in, the tables rewritten and the optional
   * entries copied; every earlier resource kept; nothing else but schedules.
   */
  lemma DataSetStepShape(res: OrdMap<Json>, ds: DataSetInfo, deps: seq<Option<DataSourceDef>>, tables: seq<string>,
                         ret: DataSetRecord, env: Env)
    requires DataSetStep(res, ds, deps, tables, ret, env).Ok?
    ensures PropertiesOf(env.skeletons.dataSet).Ok? && DependsOnSpec(deps).Ok?
            && RewriteTablesSpec(ret.physicalTableMap, tables).Ok?
    ensures var r := DataSetStep(res, ds, deps, tables, ret, env).value;
      DataSetCfnId(ds.id) in r.vals
      && r.vals[DataSetCfnId(ds.id)]
         == DataSetResource(env.skeletons.dataSet,
                            DataSetProperties(PropertiesOf(env.skeletons.dataSet).value, ds, ret,
                                              RewriteTablesSpec(ret.physicalTableMap, tables).value),
                            DependsOnSpec(deps).value)
      && Extends(res, r)
      && KeptOrSchedule(res.Put(DataSetCfnId(ds.id), r.vals[DataSetCfnId(ds.id)]), r, ds.id)
  {
    var p := PrepareSpec(deps, tables, ret, env).value;
    var skel := env.skeletons.dataSet;
    var key := DataSetCfnId(ds.id);
    var filled := FilledProperties(p.props, ds, ret, p.ptm);
    var res1 := res.Put(key, DataSetResource(skel, filled, p.depends));
    var res2 := RefreshSchedulesSpec(res1, ds, env).value;
    var final := DataSetResource(skel, DataSetProperties(p.props, ds, ret, p.ptm), p.depends);
    DataSetStepFrame(res, res1, res2, key, final, ds, env);
  }

  /** The data-set step only adds to the resources, its own key among them. */
  lemma DataSetStepGrows(res: OrdMap<Json>, ds: DataSetInfo, deps: seq<Option<DataSourceDef>>, tables: seq<string>,
                         ret: DataSetRecord, env: Env)
    requires DataSetStep(res, ds, deps, tables, ret, env).Ok?
    ensures var r := DataSetStep(res, ds, deps, tables, ret, env).value;
      Extends(res, r) && DataSetCfnId(ds.id) in r.vals
  {
    DataSetStepShape(res, ds, deps, tables, ret, env);
  }

  /** The schedules leave the data set's key alone, so writing it last is the same as writing it first. */
  lemma DataSetStepFrame(res: OrdMap<Json>, res1: OrdMap<Json>, res2: OrdMap<Json>, key: string, final: Json,
                         ds: DataSetInfo, env: Env)
    requires key == DataSetCfnId(ds.id) && key in res1.vals && res1.keys == res.Put(key, res1.vals[key]).keys
    requires res1.vals == res.vals[key := res1.vals[key]]
    requires RefreshSchedulesSpec(res1, ds, env) == Ok(res2)
    ensures Extends(res, res2.Put(key, final))
    ensures KeptOrSchedule(res.Put(key, final), res2.Put(key, final), ds.id)
  {
    RefreshSchedulesKeep(res1, ds, env);
    DataSetKeyIsNoScheduleKey(ds.id);
    ExtendsPut(res, key, res1.vals[key]);
    ExtendsTransitive(res, res1, res2);
    ExtendsPut(res2, key, final);
    ExtendsTransitive(res, res2, res2.Put(key, final));
  }

  // Row-level security.

  /** What `generateRowLevelPermissionDataSetCFN` looks up before generating anything. */
  datatype RlsSource = RlsSource(dataSetId: string, record: DataSetRecord, mode: ImportMode, dataSourceId: string)

  /** The permission data set's id: what follows the last `dataset/` of the setting's Arn. */
  function RlsDataSetId(rlsDef: Json): (r: Result<string>)
    ensures r.Ok? <==> Field(rlsDef, "Arn").Ok? && Field(rlsDef, "Arn").value.JStr?
    ensures r.Ok? ==> r.value == AfterLast(Field(rlsDef, "Arn").value.s, "dataset/")
  {
    var arn :- Field(rlsDef, "Arn");
    var text :- AsStr(arn);
    Ok(AfterLast(text, "dataset/"))
  }

  /**
   * The permission data set `id`, its import mode (listing its schedules when
   * SPICE), and the data source of the last table of its PhysicalTableMap.
   */
  function RlsLookup(id: string, env: Env): (r: Result<RlsSource>)
    ensures r.Ok? ==> r.value.dataSetId == id
    ensures r.Ok? ==> id in env.account.dataSets && r.value.record == env.account.dataSets[id]
    ensures r.Ok? ==> (r.value.mode == SPICE <==> r.value.record.importMode == SPICE.Name())
    ensures r.Ok? && r.value.mode == SPICE ==> id in env.account.scheduleLists
    ensures r.Ok? ==> r.value.record.physicalTableMap.JObj? && |r.value.record.physicalTableMap.obj.keys| > 0
    ensures r.Ok? ==> '/' !in r.value.dataSourceId
  {
    var rec :- DescribeDataSet(env.account, id);
    var mode := if rec.importMode == SPICE.Name() then SPICE else DIRECT_QUERY;
    var listed :- if mode == SPICE then ListRefreshSchedules(env.account, id) else Ok([]);
    var tableKey :- LastKey(rec.physicalTableMap);
    var dsArn :- TableArn(rec.physicalTableMap, tableKey);
    var dsText :- AsStr(dsArn);
    var dsId := AfterLast(dsText, "/");
    CharOccurs(dsId, '/');
    Ok(RlsSource(id, rec, mode, dsId))
  }

  /** The `QSDataSetDef` fields of the permission data set. */
  function RlsInfo(src: RlsSource): (info: DataSetInfo)
    requires src.record.physicalTableMap.JObj?
    ensures info.id == src.dataSetId && info.importMode == src.mode
    ensures info.physicalTableMap == src.record.physicalTableMap.obj.keys
  {
    var name := src.record.name;
    DataSetInfo(name, src.dataSetId, src.mode, src.record.physicalTableMap.obj.keys, name)
  }

  /**
   * The data-source count after a data source is generated: one more when
   * it was new, so that the next data source generated with remapping
   * declares parameters of its own.
   */
  function NextOrdinal(ord: nat, isNew: bool): (next: nat)
    ensures isNew ==> next > ord
    ensures !isNew ==> next == ord
  {
    if isNew then ord + 1 else ord
  }

  /**
   * Which data-source ordinal the permission-data-set generator hands on:
   * `AsWritten`, the one it was given, as `generateRowLevelPermissionDataSetCFN`
   * does; `Corrected`, the next one when its data source was new, as the
   * handler's own data-source loop does.
   */
  datatype OrdinalRule = AsWritten | Corrected

  /** The setting written under the target's Properties. */
  function RlsSetting(rlsId: string, formatVersion: Json, namespace: Json, policy: Json, status: Json): (j: Json)
    ensures Field(j, "Arn") == Ok(Sub(DataSetArnPrefix + rlsId))
    ensures Field(j, "FormatVersion") == Ok(formatVersion) && Field(j, "Namespace") == Ok(namespace)
    ensures Field(j, "PermissionPolicy") == Ok(policy) && Field(j, "Status") == Ok(status)
  {
    JObj(OrdMap(["Arn", "FormatVersion", "Namespace", "PermissionPolicy", "Status"],
                map["Arn" := Sub(DataSetArnPrefix + rlsId), "FormatVersion" := formatVersion, "Namespace" := namespace,
                    "PermissionPolicy" := policy, "Status" := status]))
  }

  /** The setting built from the source's RowLevelPermissionDataSet entry. */
  function RlsSettingOf(rlsId: string, rlsDef: Json): (r: Result<Json>)
    ensures r.Ok? <==> rlsDef.JObj? && "FormatVersion" in rlsDef.obj.vals && "Namespace" in rlsDef.obj.vals
                       && "PermissionPolicy" in rlsDef.obj.vals && "Status" in rlsDef.obj.vals
    ensures r.Ok? ==> r.value == RlsSetting(rlsId, rlsDef.obj.vals["FormatVersion"], rlsDef.obj.vals["Namespace"],
                                            rlsDef.obj.vals["PermissionPolicy"], rlsDef.obj.vals["Status"])
  {
    var fv :- Field(rlsDef, "FormatVersion");
    var ns :- Field(rlsDef, "Namespace");
    var policy :- Field(rlsDef, "PermissionPolicy");
    var status :- Field(rlsDef, "Status");
    Ok(RlsSetting(rlsId, fv, ns, policy, status))
  }

  /** `d[k]` on the Resources section. */
  function ResourceAt(res: OrdMap<Json>, key: string): (r: Result<Json>)
    ensures r.Ok? <==> key in res.vals
    ensures r.Ok? ==> r.value == res.vals[key]
  {
    if key in res.vals then Ok(res.vals[key]) else Err(KeyError(key))
  }

  /** `list.append` on a value that may not be a list. */
  function AsList(j: Json): (r: Result<seq<Json>>)
    ensures r.Ok? <==> j.JList?
    ensures r.Ok? ==> r.value == j.items
  {
    if j.JList? then Ok(j.items) else Err(AttributeError("append"))
  }

  /**
   * The last two statements of the RLS generator: the target data set gets
   * the RowLevelPermissionDataSet setting and depends on the permission data
   * set last; nothing else in Resources changes.
   */
  function AttachRls(res: OrdMap<Json>, target: string, rlsId: string, rlsDef: Json): (r: Result<OrdMap<Json>>)
    ensures r.Ok? ==> target in res.vals && r.value.keys == res.keys && Extends(res, r.value)
    ensures r.Ok? ==> forall k :: k in res.vals && k != target ==> k in r.value.vals && r.value.vals[k] == res.vals[k]
    ensures r.Ok? ==> (target in r.value.vals && Field(r.value.vals[target], "Properties").Ok? && RlsSettingOf(rlsId, rlsDef).Ok?
      && Field(Field(r.value.vals[target], "Properties").value, RlsKey) == Ok(RlsSettingOf(rlsId, rlsDef).value))
    ensures r.Ok? ==> (Field(res.vals[target], "DependsOn").Ok? && Field(res.vals[target], "DependsOn").value.JList?
      && Field(r.value.vals[target], "DependsOn")
         == Ok(JList(Field(res.vals[target], "DependsOn").value.items + [JStr(DataSetCfnId(rlsId))])))
  {
    var setting :- RlsSettingOf(rlsId, rlsDef);
    var resource :- ResourceAt(res, target);
    var props :- Field(resource, "Properties");
    var props' :- SetField(props, RlsKey, setting);
    var deps :- Field(resource, "DependsOn");
    var items :- AsList(deps);
    var resource' := JObj(resource.obj.Put("Properties", props').Put("DependsOn", JList(items + [JStr(DataSetCfnId(rlsId))])));
    ExtendsPut(res, target, resource');
    Ok(res.Put(target, resource'))
  }

  /** Both sections keep what they held. */
  ghost predicate Grows(a: Sections, b: Sections) {
    Extends(a.resources, b.resources) && Extends(a.parameters, b.parameters)
  }

  lemma GrowsTransitive(a: Sections, b: Sections, c: Sections)
    requires Grows(a, b) && Grows(b, c)
    ensures Grows(a, c)
  {
    ExtendsTransitive(a.resources, b.resources, c.resources);
    ExtendsTransitive(a.parameters, b.parameters, c.parameters);
  }

  /** The data-source generator only adds to the document. */
  lemma DataSourceSpecGrows(sec: Sections, id: string, index: nat, remap: bool, env: Env)
    requires DataSourceSpec(sec, id, index, remap, env).Ok?
    ensures Grows(sec, DataSourceSpec(sec, id, index, remap, env).value.0)
    ensures DataSourceCfnId(id) in DataSourceSpec(sec, id, index, remap, env).value.0.resources.vals
  {
    var sec' := DataSourceSpec(sec, id, index, remap, env).value.0;
    if DataSourceCfnId(id) in sec.resources.vals {
      ExtendsReflexive(sec.resources);
      ExtendsReflexive(sec.parameters);
    } else {
      assert sec'.resources.keys[..|sec.resources.keys|] == sec.resources.keys;
    }
  }

  /**
   * `generateDataSetCFN` on the document's sections, returning the new
   * sections and the data-source ordinal. `fuel` bounds the depth of the
   * data set / permission data set recursion, which the source leaves to the
   * interpreter's recursion limit.
   */
  function DataSetSpec(rule: OrdinalRule, sec: Sections, ds: DataSetInfo, deps: seq<Option<DataSourceDef>>, tables: seq<string>,
                       ord: nat, env: Env, fuel: nat): (r: Result<(Sections, nat)>)
    ensures fuel == 0 ==> r == Err(RecursionLimit)
    ensures fuel > 0 && ds.id !in env.account.dataSets ==> r == Err(NotFound(ds.id))
    decreases fuel, 1
  {
    if fuel == 0 then Err(RecursionLimit)
    else
      var ret :- DescribeDataSet(env.account, ds.id);
      DescribedSpec(rule, sec, ds, ret, DataSetStep(sec.resources, ds, deps, tables, ret, env), ord, env, fuel)
  }

  /**
   * The rest of `generateDataSetCFN` once the data set is described and its
   * resource placed: `step` is the outcome of DataSetStep.
   */
  function DescribedSpec(rule: OrdinalRule, sec: Sections, ds: DataSetInfo, ret: DataSetRecord, step: Result<OrdMap<Json>>,
                         ord: nat, env: Env, fuel: nat): Result<(Sections, nat)>
    requires fuel > 0
    decreases fuel, 0
  {
    var res :- step;
    var sec1 := Sections(res, sec.parameters);
    if RlsRequested(ret) then RlsSpec(rule, sec1, DataSetCfnId(ds.id), ret.others.vals[RlsKey], ord, env, fuel - 1)
    else Ok((sec1, ord))
  }

  /**
   * `generateRowLevelPermissionDataSetCFN`: the permission data set's data
   * source (always remapped) and the permission data set itself are generated,
   * then the target is attached to them.
   */
  function RlsSpec(rule: OrdinalRule, sec: Sections, target: string, rlsDef: Json, ord: nat, env: Env, fuel: nat)
    : Result<(Sections, nat)>
    decreases fuel, 5
  {
    var id :- RlsDataSetId(rlsDef);
    RlsDescribed(rule, sec, target, rlsDef, id, ord, env, fuel)
  }

  /** The permission data set looked up, then its data source and the rest. */
  function RlsDescribed(rule: OrdinalRule, sec: Sections, target: string, rlsDef: Json, id: string, ord: nat, env: Env, fuel: nat)
    : Result<(Sections, nat)>
    decreases fuel, 4
  {
    var src :- RlsLookup(id, env);
    RlsWithSource(rule, sec, target, rlsDef, src, ord, env, fuel)
  }

  /** The permission data set's data source generated, then the rest. */
  function RlsWithSource(rule: OrdinalRule, sec: Sections, target: string, rlsDef: Json, src: RlsSource, ord: nat, env: Env, fuel: nat)
    : Result<(Sections, nat)>
    requires src.record.physicalTableMap.JObj?
    decreases fuel, 3
  {
    var isNew := DataSourceCfnId(src.dataSourceId) !in sec.resources.vals;
    var (sec1, dsDef) :- DataSourceSpec(sec, src.dataSourceId, ord, true, env);
    var next := if rule == Corrected then NextOrdinal(ord, isNew) else ord;
    RlsRest(rule, sec1, target, rlsDef, src, dsDef, next, env, fuel)
  }

  /** The permission data set generated, then the target attached to it. */
  function RlsRest(rule: OrdinalRule, sec: Sections, target: string, rlsDef: Json, src: RlsSource, dsDef: Option<DataSourceDef>,
                   ord: nat, env: Env, fuel: nat): Result<(Sections, nat)>
    requires src.record.physicalTableMap.JObj?
    decreases fuel, 2
  {
    var info := RlsInfo(src);
    var (sec1, ord1) :- DataSetSpec(rule, sec, info, [dsDef], info.physicalTableMap, ord, env, fuel);
    var res :- AttachRls(sec1.resources, target, src.dataSetId, rlsDef);
    Ok((Sections(res, sec1.parameters), ord1))
  }

  // What the generators keep: the four lemmas below go down the same
  // recursion as the functions they are about.

  /**
   * A generated data set only adds to the document: every resource and
   * parameter already there stays, in place; the data set's own resource is
   * there afterwards; the data-source ordinal never goes back.
   */
  lemma {:induction false} DataSetSpecGrows(rule: OrdinalRule, sec: Sections, ds: DataSetInfo, deps: seq<Option<DataSourceDef>>,
                                            tables: seq<string>, ord: nat, env: Env, fuel: nat)
    requires DataSetSpec(rule, sec, ds, deps, tables, ord, env, fuel).Ok?
    ensures var r := DataSetSpec(rule, sec, ds, deps, tables, ord, env, fuel).value;
      Grows(sec, r.0) && r.1 >= ord && (rule == AsWritten ==> r.1 == ord) && DataSetCfnId(ds.id) in r.0.resources.vals
    decreases fuel, 1
  {
    var ret := DescribeDataSet(env.account, ds.id).value;
    DataSetStepGrows(sec.resources, ds, deps, tables, ret, env);
    DescribedSpecGrows(rule, sec, ds, ret, DataSetStep(sec.resources, ds, deps, tables, ret, env), ord, env, fuel);
  }

  lemma {:induction false} DescribedSpecGrows(rule: OrdinalRule, sec: Sections, ds: DataSetInfo, ret: DataSetRecord,
                                              step: Result<OrdMap<Json>>, ord: nat, env: Env, fuel: nat)
    requires fuel > 0
    requires step.Ok? ==> Extends(sec.resources, step.value) && DataSetCfnId(ds.id) in step.value.vals
    requires DescribedSpec(rule, sec, ds, ret, step, ord, env, fuel).Ok?
    ensures var r := DescribedSpec(rule, sec, ds, ret, step, ord, env, fuel).value;
      Grows(sec, r.0) && r.1 >= ord && (rule == AsWritten ==> r.1 == ord) && DataSetCfnId(ds.id) in r.0.resources.vals
    decreases fuel, 0
  {
    var sec1 := Sections(step.value, sec.parameters);
    ExtendsReflexive(sec.parameters);
    if RlsRequested(ret) {
      var target := DataSetCfnId(ds.id);
      var rlsDef := ret.others.vals[RlsKey];
      RlsSpecGrows(rule, sec1, target, rlsDef, ord, env, fuel - 1);
      GrowsTransitive(sec, sec1, RlsSpec(rule, sec1, target, rlsDef, ord, env, fuel - 1).value.0);
    }
  }

  /**
   * A permission data set only adds to the document; afterwards its data
   * source, itself and the target data set are all there, and a data source
   * added for it moves the ordinal on.
   */
  lemma {:induction false} RlsSpecGrows(rule: OrdinalRule, sec: Sections, target: string, rlsDef: Json, ord: nat, env: Env, fuel: nat)
    requires RlsSpec(rule, sec, target, rlsDef, ord, env, fuel).Ok?
    ensures RlsDataSetId(rlsDef).Ok? && RlsLookup(RlsDataSetId(rlsDef).value, env).Ok?
    ensures var r := RlsSpec(rule, sec, target, rlsDef, ord, env, fuel).value;
      var src := RlsLookup(RlsDataSetId(rlsDef).value, env).value;
      Grows(sec, r.0) && r.1 >= ord
      && DataSourceCfnId(src.dataSourceId) in r.0.resources.vals
      && DataSetCfnId(src.dataSetId) in r.0.resources.vals
      && target in r.0.resources.vals
      && (rule == AsWritten ==> r.1 == ord)
      && (rule == Corrected && DataSourceCfnId(src.dataSourceId) !in sec.resources.vals ==> r.1 > ord)
    decreases fuel, 5
  {
    RlsDescribedGrows(rule, sec, target, rlsDef, RlsDataSetId(rlsDef).value, ord, env, fuel);
  }

  lemma {:induction false} RlsDescribedGrows(rule: OrdinalRule, sec: Sections, target: string, rlsDef: Json, id: string, ord: nat,
                                             env: Env, fuel: nat)
    requires RlsDescribed(rule, sec, target, rlsDef, id, ord, env, fuel).Ok?
    ensures RlsLookup(id, env).Ok?
    ensures var r := RlsDescribed(rule, sec, target, rlsDef, id, ord, env, fuel).value;
      var src := RlsLookup(id, env).value;
      Grows(sec, r.0) && r.1 >= ord
      && DataSourceCfnId(src.dataSourceId) in r.0.resources.vals
      && DataSetCfnId(src.dataSetId) in r.0.resources.vals
      && target in r.0.resources.vals
      && (rule == AsWritten ==> r.1 == ord)
      && (rule == Corrected && DataSourceCfnId(src.dataSourceId) !in sec.resources.vals ==> r.1 > ord)
    decreases fuel, 4
  {
    RlsWithSourceGrows(rule, sec, target, rlsDef, RlsLookup(id, env).value, ord, env, fuel);
  }

  lemma {:induction false} RlsWithSourceGrows(rule: OrdinalRule, sec: Sections, target: string, rlsDef: Json, src: RlsSource,
                                              ord: nat, env: Env, fuel: nat)
    requires src.record.physicalTableMap.JObj?
    requires RlsWithSource(rule, sec, target, rlsDef, src, ord, env, fuel).Ok?
    ensures var r := RlsWithSource(rule, sec, target, rlsDef, src, ord, env, fuel).value;
      Grows(sec, r.0) && r.1 >= ord
      && DataSourceCfnId(src.dataSourceId) in r.0.resources.vals
      && DataSetCfnId(src.dataSetId) in r.0.resources.vals
      && target in r.0.resources.vals
      && (rule == AsWritten ==> r.1 == ord)
      && (rule == Corrected && DataSourceCfnId(src.dataSourceId) !in sec.resources.vals ==> r.1 > ord)
    decreases fuel, 3
  {
    var isNew := DataSourceCfnId(src.dataSourceId) !in sec.resources.vals;
    var (sec1, dsDef) := DataSourceSpec(sec, src.dataSourceId, ord, true, env).value;
    DataSourceSpecGrows(sec, src.dataSourceId, ord, true, env);
    var next := if rule == Corrected then NextOrdinal(ord, isNew) else ord;
    RlsRestGrows(rule, sec1, target, rlsDef, src, dsDef, next, env, fuel);
    GrowsTransitive(sec, sec1, RlsRest(rule, sec1, target, rlsDef, src, dsDef, next, env, fuel).value.0);
  }

  lemma {:induction false} RlsRestGrows(rule: OrdinalRule, sec: Sections, target: string, rlsDef: Json, src: RlsSource,
                                        dsDef: Option<DataSourceDef>, ord: nat, env: Env, fuel: nat)
    requires src.record.physicalTableMap.JObj?
    requires RlsRest(rule, sec, target, rlsDef, src, dsDef, ord, env, fuel).Ok?
    ensures var r := RlsRest(rule, sec, target, rlsDef, src, dsDef, ord, env, fuel).value;
      Grows(sec, r.0) && r.1 >= ord && (rule == AsWritten ==> r.1 == ord)
      && DataSetCfnId(src.dataSetId) in r.0.resources.vals && target in r.0.resources.vals
    decreases fuel, 2
  {
    var info := RlsInfo(src);
    DataSetSpecGrows(rule, sec, info, [dsDef], info.physicalTableMap, ord, env, fuel);
    var sec1 := DataSetSpec(rule, sec, info, [dsDef], info.physicalTableMap, ord, env, fuel).value.0;
    var res := AttachRls(sec1.resources, target, src.dataSetId, rlsDef).value;
    ExtendsReflexive(sec1.parameters);
    GrowsTransitive(sec, sec1, Sections(res, sec1.parameters));
  }

  // What the generators leave alone: every resource they do not own.

  /** The keys the data-set generators write: a data set's (`DSet`...) and a refresh schedule's (`RSchedule`...). */
  predicate DataSetSideKey(k: string) {
    (|k| >= 4 && k[..4] == "DSet") || HasSchedulePrefix(k)
  }

  /** Every resource of `a` under a key the data-set generators do not own is in `b`, unchanged. */
  ghost predicate KeepsSources(a: OrdMap<Json>, b: OrdMap<Json>) {
    forall k :: k in a.vals && !DataSetSideKey(k) ==> k in b.vals && b.vals[k] == a.vals[k]
  }

  lemma KeepsSourcesTransitive(a: OrdMap<Json>, b: OrdMap<Json>, c: OrdMap<Json>)
    requires KeepsSources(a, b) && KeepsSources(b, c)
    ensures KeepsSources(a, c)
  {
  }

  /** A data source's resource is written once, when it is new, and otherwise left as it is. */
  lemma DataSourceSpecKeeps(sec: Sections, id: string, index: nat, remap: bool, env: Env)
    requires DataSourceSpec(sec, id, index, remap, env).Ok?
    ensures KeepsSources(sec.resources, DataSourceSpec(sec, id, index, remap, env).value.0.resources)
  {
  }

  /**
   * The data-set step writes only the data set's own key and its schedules:
   * every other resource is kept, and no other key appears.
   */
  lemma DataSetStepKeeps(res: OrdMap<Json>, ds: DataSetInfo, deps: seq<Option<DataSourceDef>>, tables: seq<string>,
                         ret: DataSetRecord, env: Env)
    requires DataSetStep(res, ds, deps, tables, ret, env).Ok?
    ensures var r := DataSetStep(res, ds, deps, tables, ret, env).value;
      KeepsSources(res, r) && forall k :: k in r.vals && !DataSetSideKey(k) ==> k in res.vals
  {
    var r := DataSetStep(res, ds, deps, tables, ret, env).value;
    var key := DataSetCfnId(ds.id);
    DataSetStepShape(res, ds, deps, tables, ret, env);
    var res1 := res.Put(key, r.vals[key]);
    forall k | k in res.vals && !DataSetSideKey(k)
      ensures k in r.vals && r.vals[k] == res.vals[k]
    {
      assert k in r.vals;
      assert k != key;
    }
    forall k | k in r.vals && !DataSetSideKey(k)
      ensures k in res.vals
    {
      assert k != key;
    }
  }

  /**
   * The generators keep every resource outside the data-set side: above all,
   * a data source's resource, once written, is never rewritten. The four
   * lemmas below go down the same recursion as the functions they are about.
   */
  lemma {:induction false} DataSetSpecKeeps(rule: OrdinalRule, sec: Sections, ds: DataSetInfo, deps: seq<Option<DataSourceDef>>,
                                            tables: seq<string>, ord: nat, env: Env, fuel: nat)
    requires DataSetSpec(rule, sec, ds, deps, tables, ord, env, fuel).Ok?
    ensures KeepsSources(sec.resources, DataSetSpec(rule, sec, ds, deps, tables, ord, env, fuel).value.0.resources)
    decreases fuel, 1
  {
    var ret := DescribeDataSet(env.account, ds.id).value;
    DataSetStepKeeps(sec.resources, ds, deps, tables, ret, env);
    DescribedSpecKeeps(rule, sec, ds, ret, DataSetStep(sec.resources, ds, deps, tables, ret, env), ord, env, fuel);
  }

  lemma {:induction false} DescribedSpecKeeps(rule: OrdinalRule, sec: Sections, ds: DataSetInfo, ret: DataSetRecord,
                                              step: Result<OrdMap<Json>>, ord: nat, env: Env, fuel: nat)
    requires fuel > 0
    requires step.Ok? ==> KeepsSources(sec.resources, step.value)
    requires DescribedSpec(rule, sec, ds, ret, step, ord, env, fuel).Ok?
    ensures KeepsSources(sec.resources, DescribedSpec(rule, sec, ds, ret, step, ord, env, fuel).value.0.resources)
    decreases fuel, 0
  {
    var sec1 := Sections(step.value, sec.parameters);
    if RlsRequested(ret) {
      var target := DataSetCfnId(ds.id);
      var rlsDef := ret.others.vals[RlsKey];
      assert DescribedSpec(rule, sec, ds, ret, step, ord, env, fuel) == RlsSpec(rule, sec1, target, rlsDef, ord, env, fuel - 1);
      RlsSpecKeeps(rule, sec1, target, rlsDef, ord, env, fuel - 1);
      KeepsSourcesTransitive(sec.resources, sec1.resources, RlsSpec(rule, sec1, target, rlsDef, ord, env, fuel - 1).value.0.resources);
    }
  }

  lemma {:induction false} RlsSpecKeeps(rule: OrdinalRule, sec: Sections, target: string, rlsDef: Json, ord: nat, env: Env, fuel: nat)
    requires DataSetSideKey(target)
    requires RlsSpec(rule, sec, target, rlsDef, ord, env, fuel).Ok?
    ensures KeepsSources(sec.resources, RlsSpec(rule, sec, target, rlsDef, ord, env, fuel).value.0.resources)
    decreases fuel, 5
  {
    var id := RlsDataSetId(rlsDef).value;
    var src := RlsLookup(id, env).value;
    RlsWithSourceKeeps(rule, sec, target, rlsDef, src, ord, env, fuel);
  }

  lemma {:induction false} RlsWithSourceKeeps(rule: OrdinalRule, sec: Sections, target: string, rlsDef: Json, src: RlsSource,
                                              ord: nat, env: Env, fuel: nat)
    requires DataSetSideKey(target)
    requires src.record.physicalTableMap.JObj?
    requires RlsWithSource(rule, sec, target, rlsDef, src, ord, env, fuel).Ok?
    ensures KeepsSources(sec.resources, RlsWithSource(rule, sec, target, rlsDef, src, ord, env, fuel).value.0.resources)
    decreases fuel, 3
  {
    var isNew := DataSourceCfnId(src.dataSourceId) !in sec.resources.vals;
    var (sec1, dsDef) := DataSourceSpec(sec, src.dataSourceId, ord, true, env).value;
    DataSourceSpecKeeps(sec, src.dataSourceId, ord, true, env);
    var next := if rule == Corrected then NextOrdinal(ord, isNew) else ord;
    RlsRestKeeps(rule, sec1, target, rlsDef, src, dsDef, next, env, fuel);
    KeepsSourcesTransitive(sec.resources, sec1.resources, RlsRest(rule, sec1, target, rlsDef, src, dsDef, next, env, fuel).value.0.resources);
  }

  lemma {:induction false} RlsRestKeeps(rule: OrdinalRule, sec: Sections, target: string, rlsDef: Json, src: RlsSource,
                                        dsDef: Option<DataSourceDef>, ord: nat, env: Env, fuel: nat)
    requires DataSetSideKey(target)
    requires src.record.physicalTableMap.JObj?
    requires RlsRest(rule, sec, target, rlsDef, src, dsDef, ord, env, fuel).Ok?
    ensures KeepsSources(sec.resources, RlsRest(rule, sec, target, rlsDef, src, dsDef, ord, env, fuel).value.0.resources)
    decreases fuel, 2
  {
    var info := RlsInfo(src);
    DataSetSpecKeeps(rule, sec, info, [dsDef], info.physicalTableMap, ord, env, fuel);
    var sec1 := DataSetSpec(rule, sec, info, [dsDef], info.physicalTableMap, ord, env, fuel).value.0;
    var res := AttachRls(sec1.resources, target, src.dataSetId, rlsDef).value;
    KeepsSourcesTransitive(sec.resources, sec1.resources, res);
  }

  // The generators on the document.

  /** `get_physical_table_map_object`: the tables of a PhysicalTableMap, in the dict's order. */
  function TableKeys(ptm: Json): (r: Result<seq<string>>)
    ensures r.Ok? <==> ptm.JObj?
    ensures r.Ok? ==> r.value == ptm.obj.keys
    ensures r.Err? ==> r.error.TypeError?
  {
    if ptm.JObj? then Ok(ptm.obj.keys) else Err(TypeError(NotIterableMessage))
  }

  /** The `for table in physical_table_map` loop. */
  method PhysicalTableKeys(ptm: Json) returns (r: Result<seq<string>>)
    ensures r == TableKeys(ptm)
  {
    if !ptm.JObj? {
      return Err(TypeError(NotIterableMessage));
    }
    var keys: seq<string> := [];
    var i := 0;
    while i < |ptm.obj.keys|
      invariant 0 <= i <= |ptm.obj.keys| && keys == ptm.obj.keys[..i]
    {
      keys := keys + [ptm.obj.keys[i]];
      i := i + 1;
    }
    assert ptm.obj.keys[..i] == ptm.obj.keys;
    return Ok(keys);
  }

  /**
   * `generateDataSetCFN(datasetObj, datasourceObjs, tableMap, appendContent,
   * datasourceOrd)`, extending the document in place and returning the
   * data-source ordinal.
   */
  method GenerateDataSet(doc: TemplateDoc, rule: OrdinalRule, ds: DataSetDef, deps: seq<Option<DataSourceDef>>, tables: seq<string>,
                         ord: nat, env: Env, fuel: nat) returns (r: Result<nat>)
    modifies doc
    ensures var spec := DataSetSpec(rule, old(doc.Current()), old(ds.Info()), deps, tables, ord, env, fuel);
      (r.Ok? <==> spec.Ok?) && (r.Ok? ==> r.value == spec.value.1 && doc.Current() == spec.value.0)
      && (r.Err? ==> r.error == spec.error)
    ensures doc.outputs == old(doc.outputs)
    decreases fuel, 1
  {
    if fuel == 0 {
      return Err(RecursionLimit);
    }
    var described := DescribeDataSet(env.account, ds.id);
    if described.Err? {
      return Err(described.error);
    }
    ghost var sec0 := doc.Current();
    ghost var step := DataSetStep(sec0.resources, ds.Info(), deps, tables, described.value, env);
    var placed := PlaceDataSet(doc, ds, deps, tables, described.value, env);
    if placed.Err? {
      return Err(placed.error);
    }
    r := GenerateDescribed(doc, rule, ds, described.value, sec0, step, ord, env, fuel);
  }

  /**
   * `generateDataSetCFN` after its resource is placed: `step` is what placing
   * it made of the resources of `sec`, which the document now holds.
   */
  method GenerateDescribed(doc: TemplateDoc, rule: OrdinalRule, ds: DataSetDef, ret: DataSetRecord, ghost sec: Sections,
                           ghost step: Result<OrdMap<Json>>, ord: nat, env: Env, fuel: nat)
    returns (r: Result<nat>)
    requires fuel > 0
    requires step.Ok? && doc.resources == step.value && doc.parameters == sec.parameters
    modifies doc
    ensures var spec := DescribedSpec(rule, sec, old(ds.Info()), ret, step, ord, env, fuel);
      (r.Ok? <==> spec.Ok?) && (r.Ok? ==> r.value == spec.value.1 && doc.Current() == spec.value.0)
      && (r.Err? ==> r.error == spec.error)
    ensures doc.outputs == old(doc.outputs)
    decreases fuel, 0
  {
    if RlsRequested(ret) {
      r := GenerateRls(doc, rule, DataSetCfnId(ds.id), ret.others.vals[RlsKey], ord, env, fuel - 1);
    } else {
      r := Ok(ord);
    }
  }

  /** The body of `generateDataSetCFN` up to the row-level-security check. */
  method PlaceDataSet(doc: TemplateDoc, ds: DataSetDef, deps: seq<Option<DataSourceDef>>, tables: seq<string>,
                      ret: DataSetRecord, env: Env) returns (r: Result<()>)
    modifies doc
    ensures var step := DataSetStep(old(doc.resources), old(ds.Info()), deps, tables, ret, env);
      (r.Ok? <==> step.Ok?) && (r.Ok? ==> doc.resources == step.value) && (r.Err? ==> r.error == step.error)
    ensures doc.parameters == old(doc.parameters) && doc.outputs == old(doc.outputs)
  {
    ghost var info := ds.Info();
    ghost var res0 := doc.resources;
    var prepared := Prepare(deps, tables, ret, env);
    if prepared.Err? {
      DataSetStepIs(res0, info, deps, tables, ret, env);
      return Err(prepared.error);
    }
    var p := prepared.value;
    var skel := env.skeletons.dataSet;
    var key := DataSetCfnId(ds.id);
    var filled := FilledProperties(p.props, ds.Info(), ret, p.ptm);
    var res1 := doc.resources.Put(key, DataSetResource(skel, filled, p.depends));
    doc.resources := res1;
    var scheduled := GenerateRefreshSchedules(doc, ds, env);
    if scheduled.Err? {
      DataSetStepIs(res0, info, deps, tables, ret, env);
      return Err(scheduled.error);
    }
    var copied := CopyOptional(filled, ret.others);
    doc.resources := doc.resources.Put(key, DataSetResource(skel, copied, p.depends));
    DataSetStepIs(res0, info, deps, tables, ret, env);
    return Ok(());
  }

  /**
   * `generateRowLevelPermissionDataSetCFN(appendContent, targetDatasetIdKey,
   * rlsDatasetDef, datasourceOrd)`.
   */
  method GenerateRls(doc: TemplateDoc, rule: OrdinalRule, target: string, rlsDef: Json, ord: nat, env: Env, fuel: nat)
    returns (r: Result<nat>)
    modifies doc
    ensures var spec := RlsSpec(rule, old(doc.Current()), target, rlsDef, ord, env, fuel);
      (r.Ok? <==> spec.Ok?) && (r.Ok? ==> r.value == spec.value.1 && doc.Current() == spec.value.0)
      && (r.Err? ==> r.error == spec.error)
    ensures doc.outputs == old(doc.outputs)
    decreases fuel, 5
  {
    var id := RlsDataSetId(rlsDef);
    if id.Err? {
      return Err(id.error);
    }
    r := GenerateRlsDescribed(doc, rule, target, rlsDef, id.value, ord, env, fuel);
  }

  /** The permission data set described, its schedules listed, then its data source and the rest. */
  method GenerateRlsDescribed(doc: TemplateDoc, rule: OrdinalRule, target: string, rlsDef: Json, id: string,
                              ord: nat, env: Env, fuel: nat) returns (r: Result<nat>)
    modifies doc
    ensures var spec := RlsDescribed(rule, old(doc.Current()), target, rlsDef, id, ord, env, fuel);
      (r.Ok? <==> spec.Ok?) && (r.Ok? ==> r.value == spec.value.1 && doc.Current() == spec.value.0)
      && (r.Err? ==> r.error == spec.error)
    ensures doc.outputs == old(doc.outputs)
    decreases fuel, 4
  {
    var lookup := RlsLookup(id, env);
    if lookup.Err? {
      return Err(lookup.error);
    }
    r := GenerateRlsWithSource(doc, rule, target, rlsDef, lookup.value, ord, env, fuel);
  }

  /** The permission data set's data source, always remapped, then the rest. */
  method GenerateRlsWithSource(doc: TemplateDoc, rule: OrdinalRule, target: string, rlsDef: Json, src: RlsSource,
                               ord: nat, env: Env, fuel: nat) returns (r: Result<nat>)
    requires src.record.physicalTableMap.JObj?
    requires src.mode == SPICE ==> src.dataSetId in env.account.scheduleLists
    modifies doc
    ensures var spec := RlsWithSource(rule, old(doc.Current()), target, rlsDef, src, ord, env, fuel);
      (r.Ok? <==> spec.Ok?) && (r.Ok? ==> r.value == spec.value.1 && doc.Current() == spec.value.0)
      && (r.Err? ==> r.error == spec.error)
    ensures doc.outputs == old(doc.outputs)
    decreases fuel, 3
  {
    var isNew := DataSourceCfnId(src.dataSourceId) !in doc.resources.vals;
    var dsDef := GenerateDataSource(doc, src.dataSourceId, ord, true, env);
    if dsDef.Err? {
      return Err(dsDef.error);
    }
    var next := if rule == Corrected then NextOrdinal(ord, isNew) else ord;
    r := GenerateRlsRest(doc, rule, target, rlsDef, src, dsDef.value, next, env, fuel);
  }

  /** The permission data set's `QSDataSetDef`, its generation, and the target's two updates. */
  method GenerateRlsRest(doc: TemplateDoc, rule: OrdinalRule, target: string, rlsDef: Json, src: RlsSource, dsDef: Option<DataSourceDef>,
                         ord: nat, env: Env, fuel: nat) returns (r: Result<nat>)
    requires src.record.physicalTableMap.JObj?
    requires src.mode == SPICE ==> src.dataSetId in env.account.scheduleLists
    modifies doc
    ensures var spec := RlsRest(rule, old(doc.Current()), target, rlsDef, src, dsDef, ord, env, fuel);
      (r.Ok? <==> spec.Ok?) && (r.Ok? ==> r.value == spec.value.1 && doc.Current() == spec.value.0)
      && (r.Err? ==> r.error == spec.error)
    ensures doc.outputs == old(doc.outputs)
    decreases fuel, 2
  {
    var rls := NewRlsDataSet(src, dsDef, env);
    var sub := GenerateDataSet(doc, rule, rls, rls.dependingDataSources, rls.physicalTableMap, ord, env, fuel);
    if sub.Err? {
      return Err(sub.error);
    }
    var attached := AttachTarget(doc, target, src.dataSetId, rlsDef);
    if attached.Err? {
      return Err(attached.error);
    }
    return Ok(sub.value);
  }

  /** The target's `RowLevelPermissionDataSet` and `DependsOn` updated in place. */
  method AttachTarget(doc: TemplateDoc, target: string, rlsId: string, rlsDef: Json) returns (r: Result<()>)
    modifies doc
    ensures var spec := AttachRls(old(doc.resources), target, rlsId, rlsDef);
      (r.Ok? <==> spec.Ok?) && (r.Ok? ==> doc.resources == spec.value)
      && (r.Err? ==> r.error == spec.error && doc.resources == old(doc.resources))
    ensures doc.parameters == old(doc.parameters) && doc.outputs == old(doc.outputs)
  {
    var attached := AttachRls(doc.resources, target, rlsId, rlsDef);
    if attached.Err? {
      return Err(attached.error);
    }
    doc.resources := attached.value;
    return Ok(());
  }

  /** The `QSDataSetDef` built for the permission data set, depending on its data source. */
  method NewRlsDataSet(src: RlsSource, dsDef: Option<DataSourceDef>, env: Env) returns (rls: DataSetDef)
    requires src.record.physicalTableMap.JObj?
    requires src.mode == SPICE ==> src.dataSetId in env.account.scheduleLists
    ensures fresh(rls) && rls.Info() == RlsInfo(src)
    ensures rls.dependingDataSources == [dsDef] && rls.physicalTableMap == RlsInfo(src).physicalTableMap
  {
    var tables := PhysicalTableKeys(src.record.physicalTableMap);
    var schedules := if src.mode == SPICE then JList(env.account.scheduleLists[src.dataSetId]) else JList([]);
    rls := new DataSetDef(src.record.name, src.dataSetId, src.mode, src.record.name, schedules, tables.value);
    rls.dependingDataSources := [dsDef];
  }
}
