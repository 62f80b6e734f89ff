/**
 * What the data-source generator writes into the new AWS::QuickSight::DataSource
 * resource: the id and the name, the engine's Type and DataSourceParameters
 * (references to the REMAP_DS parameters, or the settings the source account
 * describes), the VPC connection and the credentials.
 */
module DataSourceResource {
  import opened Results
  import opened Json
  import opened DataSources
  import opened QuickSight
  import opened Documents
  import opened DataSourceGen
  import opened DataSourceProps

  /** The keys the generator writes after the id and the name. */
  const WrittenKeys: set<string> := {"Type", "DataSourceParameters", "VpcConnectionProperties", "Credentials"}

  /** The VPC connection and the credentials, put one after the other. */
  function SharedPuts(m: OrdMap<Json>, rec: DataSourceRecord): OrdMap<Json> {
    var m1 := if rec.vpcConnectionProperties.Some? then m.Put("VpcConnectionProperties", VpcProperties) else m;
    if rec.dsType in SecretNames then m1.Put("Credentials", SecretProperties) else m1
  }

  /** The engine's Type and DataSourceParameters, put one after the other. */
  function EnginePuts(m: OrdMap<Json>, rec: DataSourceRecord, engine: Option<Json>): OrdMap<Json> {
    if engine.Some? then m.Put("Type", JStr(rec.dsType)).Put("DataSourceParameters", engine.value) else m
  }

  lemma SharedEntriesPut(m: OrdMap<Json>, rec: DataSourceRecord)
    ensures PutAll(m, SharedEntries(rec)) == SharedPuts(m, rec)
  {
    var e1: seq<(string, Json)> := if rec.vpcConnectionProperties.Some? then [("VpcConnectionProperties", VpcProperties)] else [];
    var e2: seq<(string, Json)> := if rec.dsType in SecretNames then [("Credentials", SecretProperties)] else [];
    PutAllAppend(m, e1, e2);
    assert PutAll(m, e1) == if rec.vpcConnectionProperties.Some? then m.Put("VpcConnectionProperties", VpcProperties) else m by {
      if e1 != [] { assert e1[..0] == []; }
    }
    if e2 != [] { assert e2[..0] == []; }
  }

  lemma EngineEntriesPut(m: OrdMap<Json>, rec: DataSourceRecord, engine: Option<Json>)
    ensures PutAll(m, EngineEntries(rec, engine)) == EnginePuts(m, rec, engine)
  {
    if engine.Some? {
      PutAllPair(m, EngineEntries(rec, engine));
    }
  }

  /** The four keys the generator writes are different keys. */
  lemma WrittenKeysDistinct()
    ensures "Type" != "Credentials" && "Type" != "VpcConnectionProperties" && "Type" != "DataSourceParameters"
    ensures "DataSourceParameters" != "Credentials" && "DataSourceParameters" != "VpcConnectionProperties"
    ensures "Credentials" != "VpcConnectionProperties"
  {
    assert "Type"[0] != "Credentials"[0] && "Type"[0] != "VpcConnectionProperties"[0] && "Type"[0] != "DataSourceParameters"[0];
    assert "DataSourceParameters"[0] != "Credentials"[0] && "DataSourceParameters"[0] != "VpcConnectionProperties"[0];
    assert "Credentials"[0] != "VpcConnectionProperties"[0];
  }

  /** The keys the generator does not write keep their values. */
  lemma PutsKeep(base: OrdMap<Json>, rec: DataSourceRecord, engine: Option<Json>, sharedFirst: bool, p: OrdMap<Json>)
    requires p == if sharedFirst then EnginePuts(SharedPuts(base, rec), rec, engine) else SharedPuts(EnginePuts(base, rec, engine), rec)
    ensures forall k :: k in base.vals && k !in WrittenKeys ==> k in p.vals && p.vals[k] == base.vals[k]
  {
  }

  /** The engine's Type and DataSourceParameters hold what the generator wrote. */
  lemma PutsEngine(base: OrdMap<Json>, rec: DataSourceRecord, engine: Option<Json>, sharedFirst: bool, p: OrdMap<Json>)
    requires p == if sharedFirst then EnginePuts(SharedPuts(base, rec), rec, engine) else SharedPuts(EnginePuts(base, rec, engine), rec)
    requires engine.Some?
    ensures "Type" in p.vals && p.vals["Type"] == JStr(rec.dsType)
    ensures "DataSourceParameters" in p.vals && p.vals["DataSourceParameters"] == engine.value
  {
    WrittenKeysDistinct();
  }

  /** A VPC connection becomes the reference the generator wrote. */
  lemma PutsVpc(base: OrdMap<Json>, rec: DataSourceRecord, engine: Option<Json>, sharedFirst: bool, p: OrdMap<Json>)
    requires p == if sharedFirst then EnginePuts(SharedPuts(base, rec), rec, engine) else SharedPuts(EnginePuts(base, rec, engine), rec)
    requires rec.vpcConnectionProperties.Some?
    ensures "VpcConnectionProperties" in p.vals && p.vals["VpcConnectionProperties"] == VpcProperties
  {
    WrittenKeysDistinct();
  }

  /** The credentials hold the reference the generator wrote. */
  lemma PutsSecret(base: OrdMap<Json>, rec: DataSourceRecord, engine: Option<Json>, sharedFirst: bool, p: OrdMap<Json>)
    requires p == if sharedFirst then EnginePuts(SharedPuts(base, rec), rec, engine) else SharedPuts(EnginePuts(base, rec, engine), rec)
    requires rec.dsType in SecretNames
    ensures "Credentials" in p.vals && p.vals["Credentials"] == SecretProperties
  {
    WrittenKeysDistinct();
  }

  /**
   * The Properties after the generator's updates: the keys it does not
   * write keep their values, and each key it writes holds what it wrote,
   * whichever order the engine writes them in.
   */
  lemma PropertyValues(base: OrdMap<Json>, rec: DataSourceRecord, index: nat, remap: bool)
    requires PropertyEntries(rec, index, remap).Ok?
    ensures var p := PutAll(base, PropertyEntries(rec, index, remap).value);
      var engine := EngineParameters(rec, index, remap).value;
      (forall k :: k in base.vals && k !in WrittenKeys ==> k in p.vals && p.vals[k] == base.vals[k])
      && (engine.Some? ==> "Type" in p.vals && p.vals["Type"] == JStr(rec.dsType)
                           && "DataSourceParameters" in p.vals && p.vals["DataSourceParameters"] == engine.value)
      && (rec.vpcConnectionProperties.Some? ==> "VpcConnectionProperties" in p.vals && p.vals["VpcConnectionProperties"] == VpcProperties)
      && (rec.dsType in SecretNames ==> "Credentials" in p.vals && p.vals["Credentials"] == SecretProperties)
  {
    var engine := EngineParameters(rec, index, remap).value;
    var ee, se := EngineEntries(rec, engine), SharedEntries(rec);
    var p := PutAll(base, PropertyEntries(rec, index, remap).value);
    if rec.dsType in RdbmsNames {
      PutAllAppend(base, se, ee);
      SharedEntriesPut(base, rec);
      EngineEntriesPut(PutAll(base, se), rec, engine);
    } else {
      PutAllAppend(base, ee, se);
      EngineEntriesPut(base, rec, engine);
      SharedEntriesPut(PutAll(base, ee), rec);
    }
    PutsKeep(base, rec, engine, rec.dsType in RdbmsNames, p);
    if engine.Some? {
      PutsEngine(base, rec, engine, rec.dsType in RdbmsNames, p);
    }
    if rec.vpcConnectionProperties.Some? {
      PutsVpc(base, rec, engine, rec.dsType in RdbmsNames, p);
    }
    if rec.dsType in SecretNames {
      PutsSecret(base, rec, engine, rec.dsType in RdbmsNames, p);
    }
  }

  // The resource a new data source adds.

  /** The new resource's Properties: the skeleton's, with the id and the name, then the property entries. */
  lemma NewResourceProperties(skel: Json, props0: OrdMap<Json>, params: OrdMap<Json>, rec: DataSourceRecord, id: string,
                              index: nat, remap: bool)
    requires NewResource(skel, params, rec, id, index, remap).Ok? && PropertiesOf(skel) == Ok(props0)
    ensures PropertyEntries(rec, index, remap).Ok?
    ensures Field(NewResource(skel, params, rec, id, index, remap).value.0, "Properties")
            == Ok(JObj(PutAll(props0.Put("DataSourceId", JStr(id)).Put("Name", JStr(rec.name)), PropertyEntries(rec, index, remap).value)))
  {
    SettleProperties(props0.Put("DataSourceId", JStr(id)).Put("Name", JStr(rec.name)), params, rec, id, index, remap);
  }

  /**
   * The new resource's Properties, key by key: the id and the name; the
   * engine's Type and DataSourceParameters, for an engine that has them;
   * a VPC connection as a reference to the VpcConnectionArn parameter; the
   * secret as a reference to the DSSecretArn parameter.
   */
  lemma NewResourceFields(skel: Json, props0: OrdMap<Json>, params: OrdMap<Json>, rec: DataSourceRecord, id: string,
                          index: nat, remap: bool)
    requires NewResource(skel, params, rec, id, index, remap).Ok? && PropertiesOf(skel) == Ok(props0)
    ensures EngineParameters(rec, index, remap).Ok?
    ensures var res := NewResource(skel, params, rec, id, index, remap).value.0;
      var engine := EngineParameters(rec, index, remap).value;
      Path(res, ["Properties", "DataSourceId"]) == Ok(JStr(id))
      && Path(res, ["Properties", "Name"]) == Ok(JStr(rec.name))
      && (engine.Some? ==> Path(res, ["Properties", "Type"]) == Ok(JStr(rec.dsType))
                           && Path(res, ["Properties", "DataSourceParameters"]) == Ok(engine.value))
      && (rec.vpcConnectionProperties.Some? ==>
            Path(res, ["Properties", "VpcConnectionProperties", "VpcConnectionArn"]) == Ok(Ref("VpcConnectionArn")))
      && (rec.dsType in SecretNames ==> Path(res, ["Properties", "Credentials", "SecretArn"]) == Ok(Ref("DSSecretArn")))
  {
    NewResourceProperties(skel, props0, params, rec, id, index, remap);
    var res := NewResource(skel, params, rec, id, index, remap).value.0;
    var base := props0.Put("DataSourceId", JStr(id)).Put("Name", JStr(rec.name));
    PropertyFields(res, base, rec, id, index, remap);
  }

  /** The same, read off the Properties. */
  lemma PropertyFields(res: Json, base: OrdMap<Json>, rec: DataSourceRecord, id: string, index: nat, remap: bool)
    requires "DataSourceId" in base.vals && base.vals["DataSourceId"] == JStr(id)
    requires "Name" in base.vals && base.vals["Name"] == JStr(rec.name)
    requires PropertyEntries(rec, index, remap).Ok?
    requires Field(res, "Properties") == Ok(JObj(PutAll(base, PropertyEntries(rec, index, remap).value)))
    ensures var engine := EngineParameters(rec, index, remap).value;
      Path(res, ["Properties", "DataSourceId"]) == Ok(JStr(id))
      && Path(res, ["Properties", "Name"]) == Ok(JStr(rec.name))
      && (engine.Some? ==> Path(res, ["Properties", "Type"]) == Ok(JStr(rec.dsType))
                           && Path(res, ["Properties", "DataSourceParameters"]) == Ok(engine.value))
      && (rec.vpcConnectionProperties.Some? ==>
            Path(res, ["Properties", "VpcConnectionProperties", "VpcConnectionArn"]) == Ok(Ref("VpcConnectionArn")))
      && (rec.dsType in SecretNames ==> Path(res, ["Properties", "Credentials", "SecretArn"]) == Ok(Ref("DSSecretArn")))
  {
    var p := PutAll(base, PropertyEntries(rec, index, remap).value);
    PropertyValues(base, rec, index, remap);
    assert "DataSourceId" !in WrittenKeys && "Name" !in WrittenKeys;
    ValueFields(res, p, rec, id, EngineParameters(rec, index, remap).value);
  }

  /** Each of the Properties read off the dict that holds them. */
  lemma ValueFields(res: Json, p: OrdMap<Json>, rec: DataSourceRecord, id: string, engine: Option<Json>)
    requires Field(res, "Properties") == Ok(JObj(p))
    requires "DataSourceId" in p.vals && p.vals["DataSourceId"] == JStr(id)
    requires "Name" in p.vals && p.vals["Name"] == JStr(rec.name)
    requires engine.Some? ==> "Type" in p.vals && p.vals["Type"] == JStr(rec.dsType)
                              && "DataSourceParameters" in p.vals && p.vals["DataSourceParameters"] == engine.value
    requires rec.vpcConnectionProperties.Some? ==> "VpcConnectionProperties" in p.vals && p.vals["VpcConnectionProperties"] == VpcProperties
    requires rec.dsType in SecretNames ==> "Credentials" in p.vals && p.vals["Credentials"] == SecretProperties
    ensures Path(res, ["Properties", "DataSourceId"]) == Ok(JStr(id))
    ensures Path(res, ["Properties", "Name"]) == Ok(JStr(rec.name))
    ensures engine.Some? ==> Path(res, ["Properties", "Type"]) == Ok(JStr(rec.dsType))
                             && Path(res, ["Properties", "DataSourceParameters"]) == Ok(engine.value)
    ensures rec.vpcConnectionProperties.Some? ==>
      Path(res, ["Properties", "VpcConnectionProperties", "VpcConnectionArn"]) == Ok(Ref("VpcConnectionArn"))
    ensures rec.dsType in SecretNames ==> Path(res, ["Properties", "Credentials", "SecretArn"]) == Ok(Ref("DSSecretArn"))
  {
    ReadTop(res, p, "DataSourceId");
    ReadTop(res, p, "Name");
    if engine.Some? {
      ReadTop(res, p, "Type");
      ReadTop(res, p, "DataSourceParameters");
    }
    if rec.vpcConnectionProperties.Some? {
      ReadNested(res, p, "VpcConnectionProperties", "VpcConnectionArn");
    }
    if rec.dsType in SecretNames {
      ReadNested(res, p, "Credentials", "SecretArn");
    }
  }

  /** Reading one of the Properties. */
  lemma ReadTop(res: Json, p: OrdMap<Json>, k: string)
    requires Field(res, "Properties") == Ok(JObj(p)) && k in p.vals
    ensures Path(res, ["Properties", k]) == Ok(p.vals[k])
  {
    PathPair(res, "Properties", k);
  }

  /** Reading an entry of one of the Properties. */
  lemma ReadNested(res: Json, p: OrdMap<Json>, k: string, k2: string)
    requires Field(res, "Properties") == Ok(JObj(p)) && k in p.vals && Field(p.vals[k], k2).Ok?
    ensures Path(res, ["Properties", k, k2]) == Field(p.vals[k], k2)
  {
    PathCons(res, "Properties", [k, k2]);
    assert ["Properties"] + [k, k2] == ["Properties", k, k2];
    PathPair(JObj(p), k, k2);
  }

  // The engine's DataSourceParameters, which NewResourceFields places in the resource.

  /**
   * An S3 source's manifest location: under REMAP_DS references to the
   * DestinationBucket and DestinationKey parameters of its index, otherwise
   * the bucket and key the source account describes.
   */
  lemma S3Parameters(rec: DataSourceRecord, index: nat, remap: bool)
    requires rec.dsType == S3.Name() && EngineParameters(rec, index, remap).Ok?
    ensures EngineParameters(rec, index, remap).value.Some?
    ensures var engine := EngineParameters(rec, index, remap).value.value;
      (remap ==>
         Path(engine, BucketPath) == Ok(Ref(Indexed(S3.Name() + "DestinationBucket", index)))
         && Path(engine, KeyPath) == Ok(Ref(Indexed(S3.Name() + "DestinationKey", index))))
      && (!remap ==>
         rec.parameters.Some?
         && Path(engine, BucketPath) == Path(rec.parameters.value, BucketPath)
         && Path(engine, KeyPath) == Path(rec.parameters.value, KeyPath))
  {
    S3BlockPaths(S3Bucket(rec, index, remap).value, S3Key(rec, index, remap).value);
  }

  /**
   * An Athena source's workgroup: under REMAP_DS a reference to the
   * Workgroup parameter of its index, otherwise the one the source account
   * describes.
   */
  lemma AthenaParameters(rec: DataSourceRecord, index: nat, remap: bool)
    requires rec.dsType == ATHENA.Name() && EngineParameters(rec, index, remap).Ok?
    ensures EngineParameters(rec, index, remap).value.Some?
    ensures var engine := EngineParameters(rec, index, remap).value.value;
      (remap ==> Path(engine, WorkGroupPath) == Ok(Ref(Indexed(ATHENA.Name() + "Workgroup", index))))
      && (!remap ==> rec.parameters.Some? && Path(engine, WorkGroupPath) == Path(rec.parameters.value, WorkGroupPath))
  {
    EngineCases(rec, index, remap);
    AthenaBlockPath(AthenaWorkGroup(rec, index, remap).value);
  }

  /** The settings an engine reached through RDS or by host writes, by name. */
  lemma FirstKeys(rec: DataSourceRecord, pkey: string, index: nat, remap: bool)
    requires FirstEntries(rec, pkey, index, remap).Ok?
    ensures var f := FirstEntries(rec, pkey, index, remap).value;
      (|f| == 2 && f[0].0 == "Database" && f[1].0 == "InstanceId")
      || (|f| == 3 && f[0].0 == "Database" && f[1].0 == "Host" && f[2].0 == "Port")
  {
  }

  /** No setting of a database engine is written twice. */
  lemma DatabaseKeysDistinct(rec: DataSourceRecord, pkey: string, index: nat, remap: bool)
    requires DatabaseEntries(rec, pkey, index, remap).Ok?
    ensures var e := DatabaseEntries(rec, pkey, index, remap).value;
      forall a, b :: 0 <= a < b < |e| ==> e[a].0 != e[b].0
  {
    var f := FirstEntries(rec, pkey, index, remap).value;
    FirstKeys(rec, pkey, index, remap);
    var e := DatabaseEntries(rec, pkey, index, remap).value;
    assert e == f || (|e| == |f| + 1 && e[..|f|] == f && e[|f|].0 == "ClusterId");
    assert "Database"[0] != "InstanceId"[0] && "Database"[0] != "Host"[0] && "Database"[0] != "Port"[0];
    assert "Database"[0] != "ClusterId"[0] && "InstanceId"[0] != "ClusterId"[0];
    assert "Host"[0] != "Port"[0] && "Host"[0] != "ClusterId"[0] && "Port"[0] != "ClusterId"[0];
    forall a, b | 0 <= a < b < |e|
      ensures e[a].0 != e[b].0
    {
      assert a < |f| ==> e[a] == f[a];
      assert b < |f| ==> e[b] == f[b];
    }
  }

  /**
   * A database engine's DataSourceParameters: under the last key of the
   * described parameters, each setting the generator wrote, readable by its
   * name.
   */
  lemma DatabaseParametersPaths(rec: DataSourceRecord, index: nat, remap: bool)
    requires DatabaseParameters(rec, index, remap).Ok?
    ensures rec.parameters.Some? && LastKey(rec.parameters.value).Ok?
    ensures var pkey := LastKey(rec.parameters.value).value;
      DatabaseEntries(rec, pkey, index, remap).Ok?
      && var e := DatabaseEntries(rec, pkey, index, remap).value;
      forall i :: 0 <= i < |e| ==> Path(DatabaseParameters(rec, index, remap).value, [pkey, e[i].0]) == Ok(e[i].1)
  {
    var pkey := LastKey(rec.parameters.value).value;
    var e := DatabaseEntries(rec, pkey, index, remap).value;
    var inner := JObj(ObjOf(e));
    assert DatabaseParameters(rec, index, remap).value == JObj(Single(pkey, inner));
    DatabaseKeysDistinct(rec, pkey, index, remap);
    ObjOfPutAll(e);
    forall i | 0 <= i < |e|
      ensures Path(JObj(Single(pkey, inner)), [pkey, e[i].0]) == Ok(e[i].1)
    {
      PutAllValue(EmptyMap(), e, i);
      PathPair(JObj(Single(pkey, inner)), pkey, e[i].0);
    }
  }

  /**
   * Under REMAP_DS the settings of an engine reached through RDS or by host
   * are references to the parameters REMAP_DS declares for them, one per
   * row of the declaration table.
   */
  lemma RemappedFirstEntries(rec: DataSourceRecord, pkey: string, index: nat)
    ensures FirstEntries(rec, pkey, index, true).Ok?
    ensures var f := FirstEntries(rec, pkey, index, true).value;
      var t := HostOrRdsTable(rec);
      |f| == |t|
      && (HasRdsParameters(rec) ==>
            f[0] == ("Database", Ref(Indexed(t[1].0, index))) && f[1] == ("InstanceId", Ref(Indexed(t[0].0, index))))
      && (!HasRdsParameters(rec) ==>
            f[0] == ("Database", Ref(Indexed(t[0].0, index))) && f[1] == ("Host", Ref(Indexed(t[2].0, index)))
            && f[2] == ("Port", Ref(Indexed(t[1].0, index))))
  {
    if !HasRdsParameters(rec) {
      HostEntriesRemapped(rec, pkey, index);
    }
  }

  /** A Redshift cluster id comes after the other settings in the declaration table. */
  lemma ClusterRowLast(rec: DataSourceRecord)
    requires rec.dsType in RdbmsNames
    ensures RemapTable(rec) == HostOrRdsTable(rec) + (if rec.dsType == REDSHIFT.Name() then [(rec.dsType + "ClusterId", "String")] else [])
  {
    EngineCases(rec, 0, true);
  }

  /** A Redshift cluster id comes after the other settings in the entries. */
  lemma ClusterEntryLast(rec: DataSourceRecord, pkey: string, index: nat)
    ensures DatabaseEntries(rec, pkey, index, true).Ok?
    ensures DatabaseEntries(rec, pkey, index, true).value
            == FirstEntries(rec, pkey, index, true).value
               + (if rec.dsType == REDSHIFT.Name() then [("ClusterId", Ref(Indexed(rec.dsType + "ClusterId", index)))] else [])
  {
    RemappedFirstEntries(rec, pkey, index);
  }

  /**
   * Under REMAP_DS a database engine's settings are references to the
   * parameters REMAP_DS declares for it: one setting per row of the
   * declaration table, each referring to its own row.
   */
  lemma RemappedDatabaseEntries(rec: DataSourceRecord, pkey: string, index: nat)
    requires rec.dsType in RdbmsNames
    ensures DatabaseEntries(rec, pkey, index, true).Ok?
    ensures var e := DatabaseEntries(rec, pkey, index, true).value;
      var table := RemapTable(rec);
      |e| == |table|
      && (HasRdsParameters(rec) ==>
            e[0] == ("Database", Ref(Indexed(table[1].0, index))) && e[1] == ("InstanceId", Ref(Indexed(table[0].0, index))))
      && (!HasRdsParameters(rec) ==>
            e[0] == ("Database", Ref(Indexed(table[0].0, index))) && e[1] == ("Host", Ref(Indexed(table[2].0, index)))
            && e[2] == ("Port", Ref(Indexed(table[1].0, index))))
      && (rec.dsType == REDSHIFT.Name() ==> e[|e| - 1] == ("ClusterId", Ref(Indexed(table[|e| - 1].0, index))))
  {
    RemappedFirstEntries(rec, pkey, index);
    ClusterRowLast(rec);
    ClusterEntryLast(rec, pkey, index);
  }

  /**
   * Without REMAP_DS a database engine's settings are the ones the source
   * account describes under the last key, except that through RDS the
   * instance id is read from RdsParameters and the database stays empty.
   */
  lemma DescribedDatabaseEntries(rec: DataSourceRecord, pkey: string, index: nat)
    requires rec.dsType in RdbmsNames && DatabaseEntries(rec, pkey, index, false).Ok?
    ensures rec.parameters.Some?
    ensures var e := DatabaseEntries(rec, pkey, index, false).value;
      var dsp := rec.parameters.value;
      (HasRdsParameters(rec) ==>
         e[0] == ("Database", JStr("")) && e[1].0 == "InstanceId" && Path(dsp, InstanceIdPath) == Ok(e[1].1))
      && (forall i :: 0 <= i < |e| && (HasRdsParameters(rec) ==> i >= 2) ==> Path(dsp, [pkey, e[i].0]) == Ok(e[i].1))
  {
  }
}
