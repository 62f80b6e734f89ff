/**
 * `generateDataSourceCFN`: one AWS::QuickSight::DataSource resource per
 * data source, keyed "DS<id>", with its connection settings either copied
 * from the source account or, under REMAP_DS, replaced by references to
 * new template parameters.
 */
module DataSourceGen {
  import opened Results
  import opened Json
  import opened Text
  import opened DataSources
  import opened QuickSight
  import opened Documents

  /** The engines whose settings sit under a single engine-specific key. */
  const RdbmsNames: seq<string> :=
    [AURORA.Name(), AURORA_POSTGRESQL.Name(), MYSQL.Name(), MARIADB.Name(), ORACLE.Name(),
     SQLSERVER.Name(), REDSHIFT.Name()]

  /** The engines that must carry a secret. */
  const SecretNames: seq<string> := RdbmsNames + [REDSHIFT.Name()]

  const Advice: string :=
    ", to be parametrized via CFN deploy action in codepipeline see https://a.co/2aOOOTA for more information about how to set it in Codepipeline"
  const RemapNote: string :=
    ". This parameter was added because REMAP_DS parameter was set in the synthesizer lambda"

  /** The Description of a parameter introduced by REMAP_DS. */
  function RemapDescription(what: string, rec: DataSourceRecord, id: string, index: nat,
                            stage: string, note: bool): string {
    what + " for datasource " + rec.name + " (ID " + id + ", type " + rec.dsType + ") with index "
    + NatToString(index) + stage + Advice + (if note then RemapNote else "")
  }

  /** A parameter name made unique per data source by its index. */
  function Indexed(prefix: string, index: nat): (name: string)
    ensures EndsWithDigit(name)
  {
    prefix + NatToString(index)
  }

  /** Different indices give different names under the same prefix. */
  lemma IndexedInjective(prefix: string, a: nat, b: nat)
    requires Indexed(prefix, a) == Indexed(prefix, b)
    ensures a == b
  {
    assert NatToString(a) == Indexed(prefix, a)[|prefix|..];
    NatToStringInjective(a, b);
  }

  /** The work in progress: resource properties, template parameters, `DSparameters`, the helper record. */
  datatype DsState = DsState(props: OrdMap<Json>, params: OrdMap<Json>, dsParams: OrdMap<Json>,
                             def: Option<DataSourceDef>)

  /** `ret['DataSource']['DataSourceParameters']`. */
  function SourceParameters(rec: DataSourceRecord): (r: Result<Json>)
    ensures r.Ok? <==> rec.parameters.Some?
  {
    match rec.parameters
    case Some(p) => Ok(p)
    case None => Err(KeyError("DataSourceParameters"))
  }

  // What the resource carries for each connection setting.

  /**
   * A connection setting as the template carries it: under REMAP_DS a
   * reference to the parameter `name`, otherwise the value the source
   * account describes at `path` of the data source's DataSourceParameters.
   */
  function Setting(rec: DataSourceRecord, remap: bool, name: string, path: seq<string>): Result<Json> {
    if remap then Ok(Ref(name))
    else
      var dsp :- SourceParameters(rec);
      Path(dsp, path)
  }

  const BucketPath: seq<string> := ["S3Parameters", "ManifestFileLocation", "Bucket"]
  const KeyPath: seq<string> := ["S3Parameters", "ManifestFileLocation", "Key"]
  const WorkGroupPath: seq<string> := ["AthenaParameters", "WorkGroup"]
  const InstanceIdPath: seq<string> := ["RdsParameters", "InstanceId"]

  function S3Bucket(rec: DataSourceRecord, index: nat, remap: bool): Result<Json> {
    Setting(rec, remap, Indexed(rec.dsType + "DestinationBucket", index), BucketPath)
  }

  function S3Key(rec: DataSourceRecord, index: nat, remap: bool): Result<Json> {
    Setting(rec, remap, Indexed(rec.dsType + "DestinationKey", index), KeyPath)
  }

  function AthenaWorkGroup(rec: DataSourceRecord, index: nat, remap: bool): Result<Json> {
    Setting(rec, remap, Indexed(rec.dsType + "Workgroup", index), WorkGroupPath)
  }

  /** The S3 engine's DataSourceParameters: the manifest file's location. */
  function S3Block(bucket: Json, key: Json): Json {
    JObj(Single("S3Parameters", JObj(Single("ManifestFileLocation",
      JObj(OrdMap(["Bucket", "Key"], map["Bucket" := bucket, "Key" := key]))))))
  }

  /** The Athena engine's DataSourceParameters: the workgroup. */
  function AthenaBlock(workGroup: Json): Json {
    JObj(Single("AthenaParameters", JObj(Single("WorkGroup", workGroup))))
  }

  /** The manifest location reads back along the paths the source account describes it at. */
  lemma S3BlockPaths(bucket: Json, key: Json)
    ensures Path(S3Block(bucket, key), BucketPath) == Ok(bucket)
    ensures Path(S3Block(bucket, key), KeyPath) == Ok(key)
  {
    var loc := JObj(OrdMap(["Bucket", "Key"], map["Bucket" := bucket, "Key" := key]));
    var s3 := JObj(Single("ManifestFileLocation", loc));
    PathCons(S3Block(bucket, key), "S3Parameters", ["ManifestFileLocation", "Bucket"]);
    PathCons(s3, "ManifestFileLocation", ["Bucket"]);
    PathCons(loc, "Bucket", []);
    PathCons(S3Block(bucket, key), "S3Parameters", ["ManifestFileLocation", "Key"]);
    PathCons(s3, "ManifestFileLocation", ["Key"]);
    PathCons(loc, "Key", []);
  }

  lemma AthenaBlockPath(workGroup: Json)
    ensures Path(AthenaBlock(workGroup), WorkGroupPath) == Ok(workGroup)
  {
    var inner := JObj(Single("WorkGroup", workGroup));
    PathCons(AthenaBlock(workGroup), "AthenaParameters", ["WorkGroup"]);
    PathCons(inner, "WorkGroup", []);
  }

  /** A String or Number parameter declaration for a remapped setting. */
  function RemapDecl(name: string, what: string, rec: DataSourceRecord, id: string, index: nat,
                     stage: string, note: bool, typ: string): (string, Json) {
    (name, ParameterDecl(RemapDescription(what, rec, id, index, stage, note), typ))
  }

  /** The parameters REMAP_DS declares for an S3 source. */
  function S3Decls(rec: DataSourceRecord, id: string, index: nat): seq<(string, Json)> {
    [RemapDecl(Indexed(rec.dsType + "DestinationBucket", index), "S3 bucket to use", rec, id, index, " in the stage", true, "String"),
     RemapDecl(Indexed(rec.dsType + "DestinationKey", index), "S3 key to use", rec, id, index, " in the stage", true, "String")]
  }

  /** The S3 settings: parameter references under REMAP_DS, the manifest location otherwise. */
  function S3Settings(st: DsState, rec: DataSourceRecord, id: string, index: nat, remap: bool): (r: Result<DsState>)
    ensures r.Ok? <==> S3Bucket(rec, index, remap).Ok? && S3Key(rec, index, remap).Ok?
    ensures r.Ok? ==> "Bucket" in r.value.dsParams.vals && r.value.dsParams.vals["Bucket"] == S3Bucket(rec, index, remap).value
    ensures r.Ok? ==> "Key" in r.value.dsParams.vals && r.value.dsParams.vals["Key"] == S3Key(rec, index, remap).value
    ensures r.Ok? ==> r.value.props == st.props
    ensures r.Ok? && !remap ==> r.value.params == st.params
    ensures r.Ok? && remap ==> r.value.params == PutAll(st.params, S3Decls(rec, id, index))
  {
    if remap then
      var decls := S3Decls(rec, id, index);
      Ok(st.(params := PutAll(st.params, decls),
             dsParams := st.dsParams.Put("Bucket", Ref(decls[0].0)).Put("Key", Ref(decls[1].0))))
    else
      var dsp :- SourceParameters(rec);
      var bucket :- Path(dsp, BucketPath);
      var key :- Path(dsp, KeyPath);
      Ok(st.(dsParams := st.dsParams.Put("Bucket", bucket).Put("Key", key)))
  }

  /**
   * The S3 branch: the resource's Type is S3 and its DataSourceParameters the
   * manifest location, each setting a reference or the described value.
   */
  function S3Step(st: DsState, rec: DataSourceRecord, id: string, index: nat, remap: bool): (r: Result<DsState>)
    ensures rec.dsType != S3.Name() ==> r == Ok(st)
    ensures rec.dsType == S3.Name() ==> (r.Ok? <==> S3Bucket(rec, index, remap).Ok? && S3Key(rec, index, remap).Ok?)
    ensures rec.dsType == S3.Name() && r.Ok? ==>
      r.value.props == st.props.Put("Type", JStr(rec.dsType))
                               .Put("DataSourceParameters", S3Block(S3Bucket(rec, index, remap).value, S3Key(rec, index, remap).value))
    ensures r.Ok? ==> r.value.params == if rec.dsType == S3.Name() && remap then PutAll(st.params, S3Decls(rec, id, index)) else st.params
  {
    if rec.dsType != S3.Name() then Ok(st)
    else
      var st1 :- S3Settings(st, rec, id, index, remap);
      // The settings just written hold Bucket and Key, so the record is always built.
      var def := NewServiceDataSourceDef(rec.name, id, st1.dsParams, Some(S3), index).value;
      var p := def.detail.parameters;
      Ok(st1.(def := Some(def),
              props := st1.props.Put("Type", JStr("S3")).Put("DataSourceParameters", S3Block(p.vals["Bucket"], p.vals["Key"]))))
  }

  /** The parameters REMAP_DS declares for an Athena source. */
  function AthenaDecls(rec: DataSourceRecord, id: string, index: nat): seq<(string, Json)> {
    [RemapDecl(Indexed(rec.dsType + "Workgroup", index), "Athena Workgroup to use", rec, id, index, " in the stage", true, "String")]
  }

  function AthenaSettings(st: DsState, rec: DataSourceRecord, id: string, index: nat, remap: bool): (r: Result<DsState>)
    ensures r.Ok? <==> AthenaWorkGroup(rec, index, remap).Ok?
    ensures r.Ok? ==> "WorkGroup" in r.value.dsParams.vals
                      && r.value.dsParams.vals["WorkGroup"] == AthenaWorkGroup(rec, index, remap).value
    ensures r.Ok? ==> r.value.props == st.props
    ensures r.Ok? && !remap ==> r.value.params == st.params
    ensures r.Ok? && remap ==> r.value.params == PutAll(st.params, AthenaDecls(rec, id, index))
  {
    if remap then
      var decls := AthenaDecls(rec, id, index);
      Ok(st.(params := PutAll(st.params, decls), dsParams := st.dsParams.Put("WorkGroup", Ref(decls[0].0))))
    else
      var dsp :- SourceParameters(rec);
      var wg :- Path(dsp, WorkGroupPath);
      Ok(st.(dsParams := st.dsParams.Put("WorkGroup", wg)))
  }

  /** The Athena branch: Type ATHENA and the workgroup as the resource's DataSourceParameters. */
  function AthenaStep(st: DsState, rec: DataSourceRecord, id: string, index: nat, remap: bool): (r: Result<DsState>)
    ensures rec.dsType != ATHENA.Name() ==> r == Ok(st)
    ensures rec.dsType == ATHENA.Name() ==> (r.Ok? <==> AthenaWorkGroup(rec, index, remap).Ok?)
    ensures rec.dsType == ATHENA.Name() && r.Ok? ==>
      r.value.props == st.props.Put("Type", JStr(rec.dsType))
                               .Put("DataSourceParameters", AthenaBlock(AthenaWorkGroup(rec, index, remap).value))
    ensures r.Ok? ==> r.value.params == if rec.dsType == ATHENA.Name() && remap then PutAll(st.params, AthenaDecls(rec, id, index)) else st.params
  {
    if rec.dsType != ATHENA.Name() then Ok(st)
    else
      var st1 :- AthenaSettings(st, rec, id, index, remap);
      // The settings just written hold WorkGroup, so the record is always built.
      var def := NewServiceDataSourceDef(rec.name, id, st1.dsParams, Some(ATHENA), index).value;
      var p := def.detail.parameters;
      Ok(st1.(def := Some(def),
              props := st1.props.Put("Type", JStr("ATHENA")).Put("DataSourceParameters", AthenaBlock(p.vals["WorkGroup"]))))
  }

  const VpcDecl: (string, Json) :=
    ("VpcConnectionArn", ParameterDecl(VpcDescription, "String"))
  const VpcDescription: string := "VPC Connection Arn to use in the stage, to be parametrized via CFN"

  /** The resource's VpcConnectionProperties: a reference to the shared parameter. */
  const VpcProperties: Json := JObj(Single("VpcConnectionArn", Ref("VpcConnectionArn")))

  /** A VPC connection becomes a reference to the shared VpcConnectionArn parameter. */
  function VpcStep(st: DsState, rec: DataSourceRecord): (r: Result<DsState>)
    ensures rec.vpcConnectionProperties.None? ==> r == Ok(st)
    ensures rec.vpcConnectionProperties.Some? ==> (r.Ok? <==> Field(rec.vpcConnectionProperties.value, "VpcConnectionArn").Ok?)
    ensures rec.vpcConnectionProperties.Some? && r.Ok? ==>
      r.value == st.(props := st.props.Put("VpcConnectionProperties", VpcProperties), params := PutAll(st.params, [VpcDecl]))
  {
    match rec.vpcConnectionProperties
    case None => Ok(st)
    case Some(vpc) =>
      var _ :- Field(vpc, "VpcConnectionArn");
      Ok(st.(props := st.props.Put("VpcConnectionProperties", JObj(Single("VpcConnectionArn", Ref("VpcConnectionArn")))),
             params := PutAll(st.params, [VpcDecl])))
  }

  const SecretDecl: (string, Json) :=
    ("DSSecretArn", ParameterDecl(SecretDescription, "String"))
  const SecretDescription: string := "Secret Arn to use in the stage, to be parametrized via CFN"
  const NoSecretMessage: string := " datasource and it is not configured with a secret, cannot proceed"

  /** The resource's Credentials: a reference to the shared secret parameter. */
  const SecretProperties: Json := JObj(Single("SecretArn", Ref("DSSecretArn")))

  /** Database engines need a secret, which becomes a reference to the shared DSSecretArn parameter. */
  function SecretStep(st: DsState, rec: DataSourceRecord, id: string): (r: Result<DsState>)
    ensures rec.dsType !in SecretNames ==> r == Ok(st)
    ensures rec.dsType in SecretNames && !rec.hasSecretArn ==> r.Err? && r.error.ValueError?
    ensures rec.dsType in SecretNames && rec.hasSecretArn ==>
      r == Ok(st.(props := st.props.Put("Credentials", SecretProperties), params := PutAll(st.params, [SecretDecl])))
  {
    if rec.dsType !in SecretNames then Ok(st)
    else if !rec.hasSecretArn then
      Err(ValueError("Datasource " + rec.name + " (ID " + id + ") is a " + rec.dsType
                     + NoSecretMessage))
    else
      Ok(st.(props := st.props.Put("Credentials", JObj(Single("SecretArn", Ref("DSSecretArn")))),
             params := PutAll(st.params, [SecretDecl])))
  }

  /** The parameters REMAP_DS declares for an engine reached through RDS. */
  function RdsDecls(rec: DataSourceRecord, id: string, index: nat): seq<(string, Json)> {
    [RemapDecl(Indexed("RDSInstanceID", index), "RDS Instance Id", rec, id, index, " to use in the stage", true, "String"),
     RemapDecl(Indexed("RDSDBName", index), "Database name", rec, id, index, " to use in the stage", true, "String")]
  }

  /**
   * The entry of an engine reached through RDS: the database, which only
   * REMAP_DS sets (the record's '' default otherwise), and the instance.
   */
  function RdsEntries(rec: DataSourceRecord, index: nat, remap: bool): Result<seq<(string, Json)>> {
    var inst :- Setting(rec, remap, Indexed("RDSInstanceID", index), InstanceIdPath);
    Ok([("Database", if remap then Ref(Indexed("RDSDBName", index)) else JStr("")), ("InstanceId", inst)])
  }

  function RdsSettings(st: DsState, rec: DataSourceRecord, dsp: Json, id: string, index: nat, remap: bool): (r: Result<DsState>)
    requires rec.parameters == Some(dsp)
    ensures r.Ok? <==> RdsEntries(rec, index, remap).Ok?
    ensures r.Ok? ==> "InstanceId" in r.value.dsParams.vals
                      && r.value.dsParams.vals["InstanceId"] == RdsEntries(rec, index, remap).value[1].1
    ensures r.Ok? && remap ==> "Database" in r.value.dsParams.vals
                               && r.value.dsParams.vals["Database"] == Ref(Indexed("RDSDBName", index))
    ensures r.Ok? && !remap && "Database" !in st.dsParams.vals ==> "Database" !in r.value.dsParams.vals
    ensures r.Ok? ==> r.value.props == st.props
    ensures r.Ok? && !remap ==> r.value.params == st.params
    ensures r.Ok? && remap ==> r.value.params == PutAll(st.params, RdsDecls(rec, id, index))
  {
    if remap then
      var decls := RdsDecls(rec, id, index);
      Ok(st.(params := PutAll(st.params, decls),
             dsParams := st.dsParams.Put("InstanceId", Ref(decls[0].0)).Put("Database", Ref(decls[1].0))))
    else
      var inst :- Path(dsp, InstanceIdPath);
      Ok(st.(dsParams := st.dsParams.Put("InstanceId", inst)))
  }

  /** An engine reached through RDS: the template entry reads the RDS record's database and instance. */
  function RdsBranch(st: DsState, rec: DataSourceRecord, dsp: Json, pkey: string, id: string, index: nat,
                     remap: bool, stype: SourceType): (r: Result<(DsState, OrdMap<Json>)>)
    requires rec.parameters == Some(dsp) && "Database" !in st.dsParams.vals
    ensures r.Ok? <==> RdsEntries(rec, index, remap).Ok?
    ensures r.Ok? ==> r.value.1 == Single(pkey, JObj(ObjOf(RdsEntries(rec, index, remap).value)))
    ensures r.Ok? ==> r.value.0.props == st.props
    ensures r.Ok? && !remap ==> r.value.0.params == st.params
    ensures r.Ok? && remap ==> r.value.0.params == PutAll(st.params, RdsDecls(rec, id, index))
  {
    var st1 :- RdsSettings(st, rec, dsp, id, index, remap);
    var rds := NewRdsDataSourceDef(rec.name, id, st1.dsParams, stype, index);
    assert RdsSetting(rds.detail, "Database") == rds.detail.database;
    assert RdsSetting(rds.detail, "InstanceId") == rds.detail.instanceId;
    Ok((st1.(def := Some(rds)),
        Single(pkey, JObj(ObjOf([("Database", rds.detail.database), ("InstanceId", rds.detail.instanceId)])))))
  }

  /** The parameters REMAP_DS declares for a host-based engine. */
  function HostDecls(rec: DataSourceRecord, id: string, index: nat): seq<(string, Json)> {
    [RemapDecl(Indexed(rec.dsType + "DBName", index), "Database name", rec, id, index, " to use in the stage", true, "String"),
     RemapDecl(Indexed(rec.dsType + "Port", index), "Database port", rec, id, index, " to use in the stage", true, "Number"),
     RemapDecl(Indexed(rec.dsType + "Host", index), "Database host", rec, id, index, " to use in the stage", true, "String")]
  }

  /** The entry of a host-based engine: database, host and port, each a reference or the described value. */
  function HostEntries(rec: DataSourceRecord, pkey: string, index: nat, remap: bool): Result<seq<(string, Json)>> {
    var db :- Setting(rec, remap, Indexed(rec.dsType + "DBName", index), [pkey, "Database"]);
    var host :- Setting(rec, remap, Indexed(rec.dsType + "Host", index), [pkey, "Host"]);
    var port :- Setting(rec, remap, Indexed(rec.dsType + "Port", index), [pkey, "Port"]);
    Ok([("Database", db), ("Host", host), ("Port", port)])
  }

  /** Reading two keys deep. */
  lemma PathPair(j: Json, a: string, b: string)
    ensures Path(j, [a, b]) == if Field(j, a).Ok? then Field(Field(j, a).value, b) else Err(Field(j, a).error)
  {
    if Field(j, a).Ok? {
      PathCons(j, a, [b]);
      assert [a] + [b] == [a, b];
      assert Path(Field(j, a).value, [b]) == Field(Field(j, a).value, b);
    }
  }

  /** The host, port and database as the source account describes them. */
  function HostRead(st: DsState, dsp: Json, pkey: string): (r: Result<DsState>)
    ensures r.Ok? <==> Path(dsp, [pkey, "Database"]).Ok? && Path(dsp, [pkey, "Host"]).Ok? && Path(dsp, [pkey, "Port"]).Ok?
    ensures r.Ok? ==> r.value == st.(dsParams := st.dsParams.Put("Host", Path(dsp, [pkey, "Host"]).value)
                                                    .Put("Port", Path(dsp, [pkey, "Port"]).value)
                                                    .Put("Database", Path(dsp, [pkey, "Database"]).value))
  {
    PathPair(dsp, pkey, "Database");
    PathPair(dsp, pkey, "Host");
    PathPair(dsp, pkey, "Port");
    var inner :- Field(dsp, pkey);
    var host :- Field(inner, "Host");
    var port :- Field(inner, "Port");
    var db :- Field(inner, "Database");
    Ok(st.(dsParams := st.dsParams.Put("Host", host).Put("Port", port).Put("Database", db)))
  }

  function HostSettings(st: DsState, rec: DataSourceRecord, dsp: Json, pkey: string, id: string, index: nat,
                        remap: bool): (r: Result<DsState>)
    requires rec.parameters == Some(dsp)
    ensures r.Ok? <==> HostEntries(rec, pkey, index, remap).Ok?
    ensures r.Ok? ==> "Database" in r.value.dsParams.vals && "Host" in r.value.dsParams.vals && "Port" in r.value.dsParams.vals
    ensures r.Ok? ==> HostEntries(rec, pkey, index, remap).value
                      == [("Database", r.value.dsParams.vals["Database"]), ("Host", r.value.dsParams.vals["Host"]),
                          ("Port", r.value.dsParams.vals["Port"])]
    ensures r.Ok? ==> r.value.props == st.props
    ensures r.Ok? && !remap ==> r.value.params == st.params
    ensures r.Ok? && remap ==> r.value.params == PutAll(st.params, HostDecls(rec, id, index))
  {
    if remap then Ok(st.(params := PutAll(st.params, HostDecls(rec, id, index)), dsParams := HostRefs(st.dsParams, rec, pkey, index)))
    else
      var r := HostRead(st, dsp, pkey);
      assert r.Ok? ==> HostEntries(rec, pkey, index, remap)
                       == Ok([("Database", Path(dsp, [pkey, "Database"]).value), ("Host", Path(dsp, [pkey, "Host"]).value),
                              ("Port", Path(dsp, [pkey, "Port"]).value)]);
      r
  }

  /** Under REMAP_DS every host setting is a reference to its own parameter. */
  lemma HostEntriesRemapped(rec: DataSourceRecord, pkey: string, index: nat)
    ensures HostEntries(rec, pkey, index, true)
            == Ok([("Database", Ref(Indexed(rec.dsType + "DBName", index))), ("Host", Ref(Indexed(rec.dsType + "Host", index))),
                   ("Port", Ref(Indexed(rec.dsType + "Port", index)))])
  {
  }

  /** Under REMAP_DS: references to the new DBName, Port and Host parameters. */
  function HostRefs(dsParams: OrdMap<Json>, rec: DataSourceRecord, pkey: string, index: nat): (r: OrdMap<Json>)
    ensures "Database" in r.vals && "Host" in r.vals && "Port" in r.vals
    ensures HostEntries(rec, pkey, index, true) == Ok([("Database", r.vals["Database"]), ("Host", r.vals["Host"]), ("Port", r.vals["Port"])])
  {
    var db := Ref(Indexed(rec.dsType + "DBName", index));
    var port := Ref(Indexed(rec.dsType + "Port", index));
    var host := Ref(Indexed(rec.dsType + "Host", index));
    HostEntriesRemapped(rec, pkey, index);
    assert "Port" != "Host" by { assert "Port"[0] != "Host"[0]; }
    assert "Database" != "Host" && "Database" != "Port" by { assert |"Database"| != |"Host"|; }
    dsParams.Put("Database", db).Put("Port", port).Put("Host", host)
  }

  /** Any other database engine: host, port and database. */
  function HostBranch(st: DsState, rec: DataSourceRecord, dsp: Json, pkey: string, id: string, index: nat,
                      remap: bool): (r: Result<(DsState, OrdMap<Json>)>)
    requires rec.parameters == Some(dsp)
    ensures r.Ok? <==> HostEntries(rec, pkey, index, remap).Ok?
    ensures r.Ok? ==> r.value.1 == Single(pkey, JObj(ObjOf(HostEntries(rec, pkey, index, remap).value)))
    ensures r.Ok? ==> r.value.0.props == st.props
    ensures r.Ok? && !remap ==> r.value.0.params == st.params
    ensures r.Ok? && remap ==> r.value.0.params == PutAll(st.params, HostDecls(rec, id, index))
  {
    var st1 :- HostSettings(st, rec, dsp, pkey, id, index, remap);
    var p := st1.dsParams;
    Ok((st1, Single(pkey, JObj(ObjOf([("Database", p.vals["Database"]), ("Host", p.vals["Host"]), ("Port", p.vals["Port"])])))))
  }

  /** The parameter REMAP_DS declares for a Redshift cluster. */
  function ClusterDecls(rec: DataSourceRecord, id: string, index: nat): seq<(string, Json)> {
    [RemapDecl(Indexed(rec.dsType + "ClusterId", index), "ClusterId", rec, id, index, " to use in the stage", false, "String")]
  }

  /** A Redshift cluster's id: a reference under REMAP_DS, the described value otherwise. */
  function ClusterSetting(rec: DataSourceRecord, pkey: string, index: nat, remap: bool): Result<Json> {
    Setting(rec, remap, Indexed(rec.dsType + "ClusterId", index), [pkey, "ClusterId"])
  }

  /** Redshift adds its cluster id to the entry. */
  function ClusterStep(st: DsState, template: OrdMap<Json>, rec: DataSourceRecord, dsp: Json, pkey: string,
                       id: string, index: nat, remap: bool): (r: Result<(DsState, OrdMap<Json>)>)
    requires rec.parameters == Some(dsp) && pkey in template.vals && template.vals[pkey].JObj?
    ensures rec.dsType != REDSHIFT.Name() ==> r == Ok((st, template))
    ensures rec.dsType == REDSHIFT.Name() ==> (r.Ok? <==> ClusterSetting(rec, pkey, index, remap).Ok?)
    ensures rec.dsType == REDSHIFT.Name() && r.Ok? ==>
      r.value.1 == template.Put(pkey, JObj(template.vals[pkey].obj.Put("ClusterId", ClusterSetting(rec, pkey, index, remap).value)))
    ensures r.Ok? ==> r.value.0.props == st.props
    ensures r.Ok? ==> r.value.0.params == (if rec.dsType == REDSHIFT.Name() && remap
                                           then PutAll(st.params, ClusterDecls(rec, id, index)) else st.params)
  {
    PathPair(dsp, pkey, "ClusterId");
    if rec.dsType != REDSHIFT.Name() then Ok((st, template))
    else
      var st1 :-
        if remap then
          var decls := ClusterDecls(rec, id, index);
          Ok(st.(params := PutAll(st.params, decls), dsParams := st.dsParams.Put("ClusterId", Ref(decls[0].0))))
        else
          var inner :- Field(dsp, pkey);
          var cluster :- Field(inner, "ClusterId");
          Ok(st.(dsParams := st.dsParams.Put("ClusterId", cluster)));
      var entry := SetField(template.vals[pkey], "ClusterId", st1.dsParams.vals["ClusterId"]).value;
      Ok((st1, template.Put(pkey, entry)))
  }

  /** Whether the source's settings sit under RdsParameters. */
  predicate HasRdsParameters(rec: DataSourceRecord) {
    rec.parameters.Some? && rec.parameters.value.JObj? && "RdsParameters" in rec.parameters.value.obj.vals
  }

  /** The entries of an engine reached through RDS or by host. */
  function FirstEntries(rec: DataSourceRecord, pkey: string, index: nat, remap: bool): Result<seq<(string, Json)>> {
    if HasRdsParameters(rec) then RdsEntries(rec, index, remap) else HostEntries(rec, pkey, index, remap)
  }

  function DatabaseEntries(rec: DataSourceRecord, pkey: string, index: nat, remap: bool): Result<seq<(string, Json)>> {
    var first :- FirstEntries(rec, pkey, index, remap);
    if rec.dsType == REDSHIFT.Name() then
      var cluster :- ClusterSetting(rec, pkey, index, remap);
      Ok(first + [("ClusterId", cluster)])
    else Ok(first)
  }

  /**
   * A database engine's DataSourceParameters: its entries under the last key
   * of the source's DataSourceParameters.
   */
  function DatabaseParameters(rec: DataSourceRecord, index: nat, remap: bool): Result<Json> {
    var dsp :- SourceParameters(rec);
    var pkey :- LastKey(dsp);
    var entries :- DatabaseEntries(rec, pkey, index, remap);
    Ok(JObj(Single(pkey, JObj(ObjOf(entries)))))
  }

  /** The parameters REMAP_DS declares for a database engine. */
  function RdbmsDecls(rec: DataSourceRecord, id: string, index: nat): seq<(string, Json)> {
    FirstDecls(rec, id, index) + (if rec.dsType == REDSHIFT.Name() then ClusterDecls(rec, id, index) else [])
  }

  /** The parameters REMAP_DS declares for an engine reached through RDS or by host. */
  function FirstDecls(rec: DataSourceRecord, id: string, index: nat): seq<(string, Json)> {
    if HasRdsParameters(rec) then RdsDecls(rec, id, index) else HostDecls(rec, id, index)
  }

  lemma RdbmsDeclsSplit(params: OrdMap<Json>, rec: DataSourceRecord, id: string, index: nat)
    ensures var first := FirstDecls(rec, id, index);
      PutAll(params, RdbmsDecls(rec, id, index))
      == (if rec.dsType == REDSHIFT.Name() then PutAll(PutAll(params, first), ClusterDecls(rec, id, index))
          else PutAll(params, first))
  {
    var first := FirstDecls(rec, id, index);
    if rec.dsType == REDSHIFT.Name() {
      PutAllAppend(params, first, ClusterDecls(rec, id, index));
    } else {
      assert RdbmsDecls(rec, id, index) == first;
    }
  }

  /** One more entry at the end of a dict literal is one more assignment. */
  lemma ObjOfSnoc(entries: seq<(string, Json)>, k: string, v: Json)
    ensures ObjOf(entries + [(k, v)]) == ObjOf(entries).Put(k, v)
  {
    assert (entries + [(k, v)])[..|entries|] == entries;
  }

  /** The Redshift step turns the entry written for the engine into the full list of entries. */
  lemma ClusterEntries(template: OrdMap<Json>, template2: OrdMap<Json>, pkey: string, first: seq<(string, Json)>,
                        redshift: bool, cluster: Result<Json>)
    requires template == Single(pkey, JObj(ObjOf(first)))
    requires redshift ==> cluster.Ok? && template2 == template.Put(pkey, JObj(template.vals[pkey].obj.Put("ClusterId", cluster.value)))
    ensures redshift ==> template2 == Single(pkey, JObj(ObjOf(first + [("ClusterId", cluster.value)])))
  {
    if redshift {
      ObjOfSnoc(first, "ClusterId", cluster.value);
      SingleReplace(pkey, JObj(ObjOf(first)), JObj(ObjOf(first).Put("ClusterId", cluster.value)));
    }
  }

  /** Replacing the entry of a one-entry dict. */
  lemma SingleReplace(k: string, a: Json, b: Json)
    ensures Single(k, a).Put(k, b) == Single(k, b)
  {
    assert map[k := a][k := b] == map[k := b];
  }

  /** The entry of an engine reached through RDS or by host. */
  function FirstEntry(st: DsState, rec: DataSourceRecord, dsp: Json, pkey: string, id: string, index: nat,
                      remap: bool, stype: SourceType): (r: Result<(DsState, OrdMap<Json>)>)
    requires rec.parameters == Some(dsp) && dsp.JObj? && "Database" !in st.dsParams.vals
    ensures r.Ok? <==> FirstEntries(rec, pkey, index, remap).Ok?
    ensures r.Ok? ==> r.value.1 == Single(pkey, JObj(ObjOf(FirstEntries(rec, pkey, index, remap).value)))
    ensures r.Ok? ==> r.value.0.props == st.props
    ensures r.Ok? ==> r.value.0.params == if remap then PutAll(st.params, FirstDecls(rec, id, index)) else st.params
  {
    if "RdsParameters" in dsp.obj.vals then RdsBranch(st, rec, dsp, pkey, id, index, remap, stype)
    else HostBranch(st, rec, dsp, pkey, id, index, remap)
  }

  /** The entry of a database engine, then Redshift's cluster id. */
  function DatabaseSettings(st: DsState, rec: DataSourceRecord, dsp: Json, pkey: string, id: string, index: nat,
                            remap: bool, stype: SourceType): (r: Result<(DsState, OrdMap<Json>)>)
    requires rec.parameters == Some(dsp) && dsp.JObj? && "Database" !in st.dsParams.vals
    ensures r.Ok? <==> DatabaseEntries(rec, pkey, index, remap).Ok?
    ensures r.Ok? ==> r.value.1 == Single(pkey, JObj(ObjOf(DatabaseEntries(rec, pkey, index, remap).value)))
    ensures r.Ok? ==> r.value.0.props == st.props
    ensures r.Ok? ==> r.value.0.params == if remap then PutAll(st.params, RdbmsDecls(rec, id, index)) else st.params
  {
    var (st1, template) :- FirstEntry(st, rec, dsp, pkey, id, index, remap, stype);
    var (st2, template2) :- ClusterStep(st1, template, rec, dsp, pkey, id, index, remap);
    RdbmsDeclsSplit(st.params, rec, id, index);
    ClusterEntries(template, template2, pkey, FirstEntries(rec, pkey, index, remap).value,
                   rec.dsType == REDSHIFT.Name(), ClusterSetting(rec, pkey, index, remap));
    Ok((st2, template2))
  }

  /** The database-engine branch: Type and the settings under the last key of DataSourceParameters. */
  function RdbmsStep(st: DsState, rec: DataSourceRecord, id: string, index: nat, remap: bool): (r: Result<DsState>)
    requires rec.dsType in RdbmsNames ==> "Database" !in st.dsParams.vals
    ensures rec.dsType !in RdbmsNames ==> r == Ok(st)
    ensures rec.dsType in RdbmsNames ==> (r.Ok? <==> DatabaseParameters(rec, index, remap).Ok?)
    ensures rec.dsType in RdbmsNames && r.Ok? ==>
      r.value.props == st.props.Put("Type", JStr(rec.dsType)).Put("DataSourceParameters", DatabaseParameters(rec, index, remap).value)
    ensures r.Ok? ==> r.value.params == (if rec.dsType in RdbmsNames && remap
                                         then PutAll(st.params, RdbmsDecls(rec, id, index)) else st.params)
  {
    if rec.dsType !in RdbmsNames then Ok(st)
    else
      var stype := SourceTypeNamed(rec.dsType).value;
      var dsp :- SourceParameters(rec);
      var pkey :- LastKey(dsp);
      var (st2, template) :- DatabaseSettings(st, rec, dsp, pkey, id, index, remap, stype);
      var def := NewRdbmsDataSourceDef(rec.name, id, st2.dsParams, stype, index, pkey);
      Ok(st2.(def := Some(def),
              props := st2.props.Put("Type", JStr(rec.dsType)).Put("DataSourceParameters", JObj(template))))
  }

  /** The parameters REMAP_DS declares for a service engine (S3 or Athena). */
  function ServiceDecls(rec: DataSourceRecord, id: string, index: nat, remap: bool): seq<(string, Json)> {
    (if rec.dsType == S3.Name() && remap then S3Decls(rec, id, index) else [])
    + (if rec.dsType == ATHENA.Name() && remap then AthenaDecls(rec, id, index) else [])
  }

  /** The declarations every data source of this shape adds, REMAP_DS or not. */
  function SharedDecls(rec: DataSourceRecord): seq<(string, Json)> {
    (if rec.vpcConnectionProperties.Some? then [VpcDecl] else [])
    + (if rec.dsType in SecretNames then [SecretDecl] else [])
  }

  /** Every parameter one data source declares, in declaration order. */
  function Declarations(rec: DataSourceRecord, id: string, index: nat, remap: bool): seq<(string, Json)> {
    ServiceDecls(rec, id, index, remap) + SharedDecls(rec)
    + (if rec.dsType in RdbmsNames && remap then RdbmsDecls(rec, id, index) else [])
  }

  /** Two batches of declarations in a row are one batch. */
  lemma PutAllThen(m: OrdMap<Json>, d1: seq<(string, Json)>, d2: seq<(string, Json)>, m1: OrdMap<Json>, m2: OrdMap<Json>)
    requires m1 == PutAll(m, d1) && m2 == PutAll(m1, d2)
    ensures m2 == PutAll(m, d1 + d2)
  {
    PutAllAppend(m, d1, d2);
  }

  /**
   * The DataSourceParameters the generator writes for the data source's
   * engine; None for an engine it writes none for.
   */
  function EngineParameters(rec: DataSourceRecord, index: nat, remap: bool): Result<Option<Json>> {
    if rec.dsType == S3.Name() then
      var bucket :- S3Bucket(rec, index, remap);
      var key :- S3Key(rec, index, remap);
      Ok(Some(S3Block(bucket, key)))
    else if rec.dsType == ATHENA.Name() then
      var wg :- AthenaWorkGroup(rec, index, remap);
      Ok(Some(AthenaBlock(wg)))
    else if rec.dsType in RdbmsNames then
      var p :- DatabaseParameters(rec, index, remap);
      Ok(Some(p))
    else Ok(None)
  }

  /** Type and DataSourceParameters, for an engine the generator writes them for. */
  function EngineEntries(rec: DataSourceRecord, engine: Option<Json>): seq<(string, Json)> {
    if engine.Some? then [("Type", JStr(rec.dsType)), ("DataSourceParameters", engine.value)] else []
  }

  /** VpcConnectionProperties and Credentials, for a source that needs them. */
  function SharedEntries(rec: DataSourceRecord): seq<(string, Json)> {
    (if rec.vpcConnectionProperties.Some? then [("VpcConnectionProperties", VpcProperties)] else [])
    + (if rec.dsType in SecretNames then [("Credentials", SecretProperties)] else [])
  }

  /**
   * What the generator writes into the resource's Properties, in the order
   * it writes them: a database engine's Type and settings come after the
   * VPC connection and the credentials, the other engines' before.
   */
  function PropertyEntries(rec: DataSourceRecord, index: nat, remap: bool): Result<seq<(string, Json)>> {
    var engine :- EngineParameters(rec, index, remap);
    Ok(if rec.dsType in RdbmsNames then SharedEntries(rec) + EngineEntries(rec, engine)
       else EngineEntries(rec, engine) + SharedEntries(rec))
  }

  /** Which engine's DataSourceParameters the resource gets. */
  lemma EngineCases(rec: DataSourceRecord, index: nat, remap: bool)
    ensures S3.Name() !in RdbmsNames && ATHENA.Name() !in RdbmsNames && S3.Name() != ATHENA.Name()
    ensures rec.dsType != S3.Name() && rec.dsType != ATHENA.Name() && rec.dsType !in RdbmsNames ==>
      EngineParameters(rec, index, remap) == Ok(None)
    ensures rec.dsType in RdbmsNames ==>
      (EngineParameters(rec, index, remap).Ok? <==> DatabaseParameters(rec, index, remap).Ok?)
      && (EngineParameters(rec, index, remap).Ok? ==>
            EngineParameters(rec, index, remap).value == Some(DatabaseParameters(rec, index, remap).value))
  {
  }

  /** The generator's checks: the engine's settings readable, a VPC connection with its ARN, a secret where needed. */
  predicate SettlesOk(rec: DataSourceRecord, index: nat, remap: bool) {
    EngineParameters(rec, index, remap).Ok?
    && (rec.vpcConnectionProperties.Some? ==> Field(rec.vpcConnectionProperties.value, "VpcConnectionArn").Ok?)
    && (rec.dsType in SecretNames ==> rec.hasSecretArn)
  }

  /** The S3 and Athena branches. */
  function ServiceSteps(st: DsState, rec: DataSourceRecord, id: string, index: nat, remap: bool): (r: Result<DsState>)
    ensures rec.dsType != S3.Name() && rec.dsType != ATHENA.Name() ==> r == Ok(st)
    ensures rec.dsType == S3.Name() || rec.dsType == ATHENA.Name() ==>
      (r.Ok? <==> EngineParameters(rec, index, remap).Ok?)
      && (r.Ok? ==> r.value.props == PutAll(st.props, EngineEntries(rec, EngineParameters(rec, index, remap).value)))
    ensures r.Ok? ==> r.value.params == PutAll(st.params, ServiceDecls(rec, id, index, remap))
  {
    var st1 :- S3Step(st, rec, id, index, remap);
    var st2 :- AthenaStep(st1, rec, id, index, remap);
    var d1 := if rec.dsType == S3.Name() && remap then S3Decls(rec, id, index) else [];
    var d2 := if rec.dsType == ATHENA.Name() && remap then AthenaDecls(rec, id, index) else [];
    assert st1.params == PutAll(st.params, d1);
    assert st2.params == PutAll(st1.params, d2);
    PutAllThen(st.params, d1, d2, st1.params, st2.params);
    if rec.dsType == S3.Name() || rec.dsType == ATHENA.Name() then
      PutAllPair(st.props, EngineEntries(rec, EngineParameters(rec, index, remap).value));
      Ok(st2)
    else Ok(st2)
  }

  /** An update with two entries is two assignments. */
  lemma PutAllPair(m: OrdMap<Json>, entries: seq<(string, Json)>)
    requires |entries| == 2
    ensures PutAll(m, entries) == m.Put(entries[0].0, entries[0].1).Put(entries[1].0, entries[1].1)
  {
    assert PutAll(m, entries[..1]) == m.Put(entries[0].0, entries[0].1) by {
      assert entries[..1][..0] == [];
    }
  }

  /** The VPC connection and the secret. */
  function SharedSteps(st: DsState, rec: DataSourceRecord, id: string): (r: Result<DsState>)
    ensures r.Ok? <==> (rec.vpcConnectionProperties.Some? ==> Field(rec.vpcConnectionProperties.value, "VpcConnectionArn").Ok?)
                       && (rec.dsType in SecretNames ==> rec.hasSecretArn)
    ensures r.Ok? ==> r.value.props == PutAll(st.props, SharedEntries(rec))
    ensures r.Ok? ==> r.value.params == PutAll(st.params, SharedDecls(rec))
    ensures r.Ok? ==> r.value.dsParams == st.dsParams
    ensures rec.dsType in SecretNames && !rec.hasSecretArn ==> r.Err?
  {
    var st1 :- VpcStep(st, rec);
    var st2 :- SecretStep(st1, rec, id);
    var d1: seq<(string, Json)> := if rec.vpcConnectionProperties.Some? then [VpcDecl] else [];
    var d2: seq<(string, Json)> := if rec.dsType in SecretNames then [SecretDecl] else [];
    assert st1.params == PutAll(st.params, d1);
    assert st2.params == PutAll(st1.params, d2);
    PutAllThen(st.params, d1, d2, st1.params, st2.params);
    var e1: seq<(string, Json)> := if rec.vpcConnectionProperties.Some? then [("VpcConnectionProperties", VpcProperties)] else [];
    var e2: seq<(string, Json)> := if rec.dsType in SecretNames then [("Credentials", SecretProperties)] else [];
    assert st1.props == PutAll(st.props, e1);
    assert st2.props == PutAll(st1.props, e2);
    PutAllThen(st.props, e1, e2, st1.props, st2.props);
    Ok(st2)
  }

  /** The service engines' branches, then the VPC connection and the secret. */
  function FirstSteps(st: DsState, rec: DataSourceRecord, id: string, index: nat, remap: bool): (r: Result<DsState>)
    ensures r.Ok? && (rec.dsType == S3.Name() || rec.dsType == ATHENA.Name()) ==> EngineParameters(rec, index, remap).Ok?
    ensures r.Ok? && (rec.dsType == S3.Name() || rec.dsType == ATHENA.Name()) ==>
      r.value.props == PutAll(st.props, EngineEntries(rec, EngineParameters(rec, index, remap).value) + SharedEntries(rec))
    ensures r.Ok? && rec.dsType != S3.Name() && rec.dsType != ATHENA.Name() ==>
      r.value.props == PutAll(st.props, SharedEntries(rec)) && r.value.dsParams == st.dsParams
    ensures r.Ok? ==> r.value.params == PutAll(st.params, ServiceDecls(rec, id, index, remap) + SharedDecls(rec))
  {
    var st1 :- ServiceSteps(st, rec, id, index, remap);
    var st2 :- SharedSteps(st1, rec, id);
    PutAllThen(st.params, ServiceDecls(rec, id, index, remap), SharedDecls(rec), st1.params, st2.params);
    if rec.dsType == S3.Name() || rec.dsType == ATHENA.Name() then
      PutAllAppend(st.props, EngineEntries(rec, EngineParameters(rec, index, remap).value), SharedEntries(rec));
      Ok(st2)
    else Ok(st2)
  }

  /** FirstSteps fails exactly when a service engine's settings, the VPC connection or the secret is missing. */
  lemma FirstStepsOk(st: DsState, rec: DataSourceRecord, id: string, index: nat, remap: bool)
    ensures FirstSteps(st, rec, id, index, remap).Ok?
            <==> (rec.dsType == S3.Name() || rec.dsType == ATHENA.Name() ==> EngineParameters(rec, index, remap).Ok?)
                 && (rec.vpcConnectionProperties.Some? ==> Field(rec.vpcConnectionProperties.value, "VpcConnectionArn").Ok?)
                 && (rec.dsType in SecretNames ==> rec.hasSecretArn)
  {
  }

  /** Settle fails exactly when one of the generator's checks does. */
  lemma SettleOk(props: OrdMap<Json>, params: OrdMap<Json>, rec: DataSourceRecord, id: string, index: nat, remap: bool)
    ensures Settle(props, params, rec, id, index, remap).Ok? <==> SettlesOk(rec, index, remap)
  {
    EngineCases(rec, index, remap);
    FirstStepsOk(DsState(props, params, EmptyMap(), None), rec, id, index, remap);
  }

  /** The settings of one data source, step by step in the order the generator takes them. */
  function Settle(props: OrdMap<Json>, params: OrdMap<Json>, rec: DataSourceRecord, id: string,
                  index: nat, remap: bool): (r: Result<DsState>)
    ensures r.Ok? ==> r.value.params == PutAll(params, Declarations(rec, id, index, remap))
    ensures rec.dsType in SecretNames && !rec.hasSecretArn ==> r.Err?
  {
    EngineCases(rec, index, remap);
    var st0 := DsState(props, params, EmptyMap(), None);
    var st2 :- FirstSteps(st0, rec, id, index, remap);
    var st3 :- RdbmsStep(st2, rec, id, index, remap);
    var d3 := if rec.dsType in RdbmsNames && remap then RdbmsDecls(rec, id, index) else [];
    PutAllThen(params, ServiceDecls(rec, id, index, remap) + SharedDecls(rec), d3, st2.params, st3.params);
    Ok(st3)
  }

  /** What Settle writes into the resource's Properties: the property entries, in order. */
  lemma SettleProperties(props: OrdMap<Json>, params: OrdMap<Json>, rec: DataSourceRecord, id: string, index: nat, remap: bool)
    ensures Settle(props, params, rec, id, index, remap).Ok? ==>
      PropertyEntries(rec, index, remap).Ok?
      && Settle(props, params, rec, id, index, remap).value.props == PutAll(props, PropertyEntries(rec, index, remap).value)
  {
    EngineCases(rec, index, remap);
    var st0 := DsState(props, params, EmptyMap(), None);
    var r2 := FirstSteps(st0, rec, id, index, remap);
    if r2.Ok? {
      var r3 := RdbmsStep(r2.value, rec, id, index, remap);
      if r3.Ok? {
        assert Settle(props, params, rec, id, index, remap) == r3;
        if rec.dsType in RdbmsNames {
          RdbmsProps(props, r2.value.props, r3.value.props, rec, index, remap);
        } else {
          assert r3.value == r2.value;
          ServiceProps(props, r2.value.props, rec, index, remap);
        }
      }
    }
  }

  /** A database engine's Type and settings come after the VPC connection and the credentials. */
  lemma RdbmsProps(props: OrdMap<Json>, p2: OrdMap<Json>, p3: OrdMap<Json>, rec: DataSourceRecord, index: nat, remap: bool)
    requires rec.dsType in RdbmsNames
    requires p2 == PutAll(props, SharedEntries(rec))
    requires DatabaseParameters(rec, index, remap).Ok?
    requires p3 == p2.Put("Type", JStr(rec.dsType)).Put("DataSourceParameters", DatabaseParameters(rec, index, remap).value)
    ensures PropertyEntries(rec, index, remap).Ok?
    ensures p3 == PutAll(props, PropertyEntries(rec, index, remap).value)
  {
    EngineCases(rec, index, remap);
    var ee := EngineEntries(rec, EngineParameters(rec, index, remap).value);
    PutAllPair(p2, ee);
    PutAllAppend(props, SharedEntries(rec), ee);
  }

  /** Any other engine's Type and settings, if any, come before them. */
  lemma ServiceProps(props: OrdMap<Json>, p2: OrdMap<Json>, rec: DataSourceRecord, index: nat, remap: bool)
    requires rec.dsType !in RdbmsNames
    requires rec.dsType == S3.Name() || rec.dsType == ATHENA.Name() ==>
      EngineParameters(rec, index, remap).Ok?
      && p2 == PutAll(props, EngineEntries(rec, EngineParameters(rec, index, remap).value) + SharedEntries(rec))
    requires rec.dsType != S3.Name() && rec.dsType != ATHENA.Name() ==> p2 == PutAll(props, SharedEntries(rec))
    ensures PropertyEntries(rec, index, remap).Ok?
    ensures p2 == PutAll(props, PropertyEntries(rec, index, remap).value)
  {
    EngineCases(rec, index, remap);
    if rec.dsType != S3.Name() && rec.dsType != ATHENA.Name() {
      assert EngineEntries(rec, None) + SharedEntries(rec) == SharedEntries(rec);
    }
  }

  /**
   * The resource one data source becomes, with the settled state: the
   * skeleton, whose Properties get the id and the name and then the
   * engine's settings, the VPC connection and the credentials.
   */
  function NewResource(skel: Json, params: OrdMap<Json>, rec: DataSourceRecord, id: string, index: nat, remap: bool)
    : (r: Result<(Json, DsState)>)
    ensures r.Ok? ==> r.value.1.params == PutAll(params, Declarations(rec, id, index, remap))
  {
    var props0 :- PropertiesOf(skel);
    var st :- Settle(props0.Put("DataSourceId", JStr(id)).Put("Name", JStr(rec.name)), params, rec, id, index, remap);
    Ok((JObj(skel.obj.Put("Properties", JObj(st.props))), st))
  }

  /**
   * The data-source generator: the new sections and the helper record.
   * A data source whose key is already present leaves the document as it
   * was (every check still applies).
   */
  function DataSourceSpec(sec: Sections, id: string, index: nat, remap: bool, env: Env)
    : (r: Result<(Sections, Option<DataSourceDef>)>)
    ensures id !in env.account.dataSources ==> r == Err(NotFound(id))
    ensures r.Ok? && DataSourceCfnId(id) in sec.resources.vals ==> r.value.0 == sec
    ensures r.Ok? && DataSourceCfnId(id) !in sec.resources.vals ==>
      r.value.0.resources.keys == sec.resources.keys + [DataSourceCfnId(id)]
      && (forall k :: k in sec.resources.vals ==> k in r.value.0.resources.vals && r.value.0.resources.vals[k] == sec.resources.vals[k])
    ensures r.Ok? ==>
      id in env.account.dataSources
      && NewResource(env.skeletons.dataSource, sec.parameters, env.account.dataSources[id], id, index, remap).Ok?
    ensures r.Ok? && DataSourceCfnId(id) !in sec.resources.vals ==>
      var built := NewResource(env.skeletons.dataSource, sec.parameters, env.account.dataSources[id], id, index, remap).value;
      DataSourceCfnId(id) in r.value.0.resources.vals && r.value.0.resources.vals[DataSourceCfnId(id)] == built.0
      && r.value.0.parameters == PutAll(sec.parameters, Declarations(env.account.dataSources[id], id, index, remap))
  {
    var rec :- DescribeDataSource(env.account, id);
    var key := DataSourceCfnId(id);
    var built :- NewResource(env.skeletons.dataSource, sec.parameters, rec, id, index, remap);
    if key in sec.resources.vals then Ok((sec, built.1.def))
    else Ok((AddResource(sec, key, built.0, built.1.params), built.1.def))
  }

  /** A new resource appended under a new key, with the new Parameters. */
  function AddResource(sec: Sections, key: string, resource: Json, params: OrdMap<Json>): (r: Sections)
    requires key !in sec.resources.vals
    ensures r.resources.keys == sec.resources.keys + [key] && r.parameters == params
    ensures forall k :: k in sec.resources.vals ==> k in r.resources.vals && r.resources.vals[k] == sec.resources.vals[k]
    ensures key in r.resources.vals && r.resources.vals[key] == resource
  {
    Sections(sec.resources.Put(key, resource), params)
  }

  /** `generateDataSourceCFN(id, doc, index, event)`, extending the document in place. */
  method GenerateDataSource(doc: TemplateDoc, id: string, index: nat, remap: bool, env: Env)
    returns (r: Result<Option<DataSourceDef>>)
    modifies doc
    ensures var spec := DataSourceSpec(old(doc.Current()), id, index, remap, env);
      (r.Ok? <==> spec.Ok?)
      && (r.Ok? ==> r.value == spec.value.1 && doc.Current() == spec.value.0)
      && (r.Err? ==> r.error == spec.error && doc.Current() == old(doc.Current()))
    ensures doc.outputs == old(doc.outputs)
  {
    var spec := DataSourceSpec(doc.Current(), id, index, remap, env);
    if spec.Err? {
      return Err(spec.error);
    }
    doc.resources := spec.value.0.resources;
    doc.parameters := spec.value.0.parameters;
    return Ok(spec.value.1);
  }
}
