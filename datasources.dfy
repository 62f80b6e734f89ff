/** The data-source helper records (`helpers/datasources.py`). */
module DataSources {
  import opened Results
  import opened Json
  import opened Text

  /** The QuickSight data-source engines the synthesiser knows by name. */
  datatype SourceType =
    | S3 | ATHENA | MYSQL | ORACLE | POSTGRESQL | MARIADB | AURORA | AURORA_POSTGRESQL
    | SQLSERVER | REDSHIFT | RDS
  {
    /** The member name, as `SourceType.X.name` gives it. */
    function Name(): string {
      match this
      case S3 => "S3"
      case ATHENA => "ATHENA"
      case MYSQL => "MYSQL"
      case ORACLE => "ORACLE"
      case POSTGRESQL => "POSTGRESQL"
      case MARIADB => "MARIADB"
      case AURORA => "AURORA"
      case AURORA_POSTGRESQL => "AURORA_POSTGRESQL"
      case SQLSERVER => "SQLSERVER"
      case REDSHIFT => "REDSHIFT"
      case RDS => "RDS"
    }

    /** The enum value. */
    function Value(): nat {
      match this
      case S3 => 1
      case ATHENA => 2
      case MYSQL => 3
      case ORACLE => 4
      case POSTGRESQL => 5
      case MARIADB => 6
      case AURORA => 7
      case AURORA_POSTGRESQL => 8
      case SQLSERVER => 9
      case REDSHIFT => 10
      case RDS => 11
    }
  }

  const AllSourceTypes: seq<SourceType> :=
    [S3, ATHENA, MYSQL, ORACLE, POSTGRESQL, MARIADB, AURORA, AURORA_POSTGRESQL, SQLSERVER, REDSHIFT, RDS]

  /** `SourceType[name]`, with None where Python raises KeyError. */
  function SourceTypeNamed(name: string): (r: Option<SourceType>)
    ensures r.Some? ==> r.value.Name() == name
    ensures r.None? ==> forall t: SourceType :: t.Name() != name
  {
    if name == "S3" then Some(S3)
    else if name == "ATHENA" then Some(ATHENA)
    else if name == "MYSQL" then Some(MYSQL)
    else if name == "ORACLE" then Some(ORACLE)
    else if name == "POSTGRESQL" then Some(POSTGRESQL)
    else if name == "MARIADB" then Some(MARIADB)
    else if name == "AURORA" then Some(AURORA)
    else if name == "AURORA_POSTGRESQL" then Some(AURORA_POSTGRESQL)
    else if name == "SQLSERVER" then Some(SQLSERVER)
    else if name == "REDSHIFT" then Some(REDSHIFT)
    else if name == "RDS" then Some(RDS)
    else None
  }

  /** Names and values identify members uniquely. */
  lemma SourceTypeNamesDistinct(a: SourceType, b: SourceType)
    ensures a.Name() == b.Name() <==> a == b
    ensures a.Value() == b.Value() <==> a == b
    ensures 1 <= a.Value() <= 11
  {
  }

  /** Looking a member up by its own name finds it. */
  lemma SourceTypeNamedRoundTrip(t: SourceType)
    ensures SourceTypeNamed(t.Name()) == Some(t)
  {
  }

  /** The resource key of a data source: "DS" and the id without hyphens. */
  function DataSourceCfnId(id: string): (key: string)
    ensures |key| >= 2 && key[..2] == "DS"
    ensures '-' !in key
  {
    "DS" + RemoveHyphens(id)
  }

  /** Two data-source ids share a resource key exactly when they agree once hyphens are dropped. */
  lemma DataSourceCfnIdCollision(a: string, b: string)
    ensures DataSourceCfnId(a) == DataSourceCfnId(b) <==> RemoveHyphens(a) == RemoveHyphens(b)
  {
    if DataSourceCfnId(a) == DataSourceCfnId(b) {
      assert RemoveHyphens(a) == DataSourceCfnId(a)[2..];
    }
  }

  /** What each subclass adds to the base record. */
  datatype Detail =
    | ServiceDetail(stype: SourceType, parameters: OrdMap<Json>)
    | RdsDetail(rdsType: SourceType, vpcConnectionArn: Json, instanceId: Json, database: Json, secretArn: Json)
    | RdbmsDetail(rdbmsType: SourceType, host: Json, port: Json, database: Json, vpcConnectionArn: Json,
                  clusterId: Json, secretArn: Json, dbParameters: OrdMap<Json>, dSourceParamKey: string)

  /** A `QSDataSourceDef` (or subclass) instance. */
  datatype DataSourceDef = DataSourceDef(name: string, arn: string, id: string, cfnId: string, index: int, detail: Detail)

  /** The ARN segment that precedes a data-source id. */
  const DataSourceSegment: string := "datasource/"

  /** `QSDataSourceDef.__init__`: the id is what follows the last "datasource/" of the ARN. */
  function BaseDef(name: string, arn: string, index: int, detail: Detail): DataSourceDef {
    var id := AfterLast(arn, DataSourceSegment);
    DataSourceDef(name, arn, id, DataSourceCfnId(id), index, detail)
  }

  /** The identity a data-source record derives from its ARN. */
  lemma BaseDefIdentity(name: string, arn: string, index: int, detail: Detail)
    ensures var d := BaseDef(name, arn, index, detail);
      IsSuffix(d.id, arn) && !Occurs(d.id, DataSourceSegment)
      && (d.id == arn || EndsWith(arn[..|arn| - |d.id|], DataSourceSegment))
      && d.cfnId == DataSourceCfnId(d.id) && d.name == name && d.index == index
    ensures !Occurs(arn, DataSourceSegment) ==> BaseDef(name, arn, index, detail).id == arn
  {
    if !Occurs(arn, DataSourceSegment) {
      AfterLastWithoutSeparator(arn, DataSourceSegment);
    }
  }

  /** A parameter copied when present, otherwise the class default. */
  function CopiedOr(p: OrdMap<Json>, k: string, default: Json): Json {
    if k in p.vals then p.vals[k] else default
  }

  const ServiceTypeMessage: string :=
    "resources.datasources.QSServiceDatasourceDef Error: Type must be an instance of SourceType enum"
  const S3SettingsMessage: string :=
    "resources.datasources.QSServiceDatasourceDef Error: S3 Datasource Type should contain Bucket and Key in properties"
  const AthenaSettingsMessage: string :=
    "resources.datasources.QSServiceDatasourceDef Error: Athena Datasource Type should contain WorkGroup in properties"

  /**
   * `QSServiceDatasourceDef(name, arn, parameters, type, index)`: TypeError
   * without a SourceType; ValueError for S3 without Bucket and Key or ATHENA
   * without WorkGroup.
   */
  function NewServiceDataSourceDef(name: string, arn: string, parameters: OrdMap<Json>,
                                   stype: Option<SourceType>, index: int): (r: Result<DataSourceDef>)
    ensures r.Ok? <==> stype.Some?
                       && (stype.value == S3 ==> "Bucket" in parameters.vals && "Key" in parameters.vals)
                       && (stype.value == ATHENA ==> "WorkGroup" in parameters.vals)
    ensures stype.None? ==> r.Err? && r.error.TypeError?
    ensures stype.Some? && r.Err? ==> r.error.ValueError?
    ensures r.Ok? ==> r.value.detail == ServiceDetail(stype.value, parameters)
                      && r.value == BaseDef(name, arn, index, r.value.detail)
  {
    if stype.None? then
      Err(TypeError(ServiceTypeMessage))
    else if stype.value == S3 && !("Bucket" in parameters.vals && "Key" in parameters.vals) then
      Err(ValueError(S3SettingsMessage))
    else if stype.value == ATHENA && "WorkGroup" !in parameters.vals then
      Err(ValueError(AthenaSettingsMessage))
    else
      Ok(BaseDef(name, arn, index, ServiceDetail(stype.value, parameters)))
  }

  /** `QSRDSDatasourceDef(...)`: copies the connection settings present, '' otherwise. */
  function NewRdsDataSourceDef(name: string, arn: string, parameters: OrdMap<Json>,
                               stype: SourceType, index: int): (d: DataSourceDef)
    ensures d.detail.RdsDetail? && d.detail.rdsType == stype
    ensures d == BaseDef(name, arn, index, d.detail)
    ensures forall k :: k in ["VpcConnectionArn", "InstanceId", "Database", "SecretArn"] ==>
      RdsSetting(d.detail, k) == (if k in parameters.vals then parameters.vals[k] else JStr(""))
  {
    BaseDef(name, arn, index, RdsDetail(stype,
      CopiedOr(parameters, "VpcConnectionArn", JStr("")),
      CopiedOr(parameters, "InstanceId", JStr("")),
      CopiedOr(parameters, "Database", JStr("")),
      CopiedOr(parameters, "SecretArn", JStr(""))))
  }

  /** The RDS record's attribute named after the parameter key `k`. */
  function RdsSetting(d: Detail, k: string): Json
    requires d.RdsDetail?
  {
    if k == "VpcConnectionArn" then d.vpcConnectionArn
    else if k == "InstanceId" then d.instanceId
    else if k == "Database" then d.database
    else if k == "SecretArn" then d.secretArn
    else JNull
  }

  /**
   * `QSRDBMSDatasourceDef(...)`: copies the connection settings present;
   * the port defaults to 0 and the others to ''.
   */
  function NewRdbmsDataSourceDef(name: string, arn: string, parameters: OrdMap<Json>,
                                 stype: SourceType, index: int, dSourceParamKey: string): (d: DataSourceDef)
    ensures d.detail.RdbmsDetail? && d.detail.rdbmsType == stype
    ensures d.detail.dbParameters == parameters && d.detail.dSourceParamKey == dSourceParamKey
    ensures d == BaseDef(name, arn, index, d.detail)
    ensures forall k :: k in ["VpcConnectionArn", "Host", "Database", "Port", "ClusterId", "SecretArn"] ==>
      RdbmsSetting(d.detail, k) == (if k in parameters.vals then parameters.vals[k]
                                    else if k == "Port" then JInt(0) else JStr(""))
  {
    BaseDef(name, arn, index, RdbmsDetail(stype,
      CopiedOr(parameters, "Host", JStr("")),
      CopiedOr(parameters, "Port", JInt(0)),
      CopiedOr(parameters, "Database", JStr("")),
      CopiedOr(parameters, "VpcConnectionArn", JStr("")),
      CopiedOr(parameters, "ClusterId", JStr("")),
      CopiedOr(parameters, "SecretArn", JStr("")),
      parameters, dSourceParamKey))
  }

  /** The RDBMS record's attribute named after the parameter key `k`. */
  function RdbmsSetting(d: Detail, k: string): Json
    requires d.RdbmsDetail?
  {
    if k == "VpcConnectionArn" then d.vpcConnectionArn
    else if k == "Host" then d.host
    else if k == "Database" then d.database
    else if k == "Port" then d.port
    else if k == "ClusterId" then d.clusterId
    else if k == "SecretArn" then d.secretArn
    else JNull
  }

  // ---------------------------------------------------------------------
  // Keyword binding of the constructor calls in the data-source generator.

  /** The keyword parameters of each constructor (all without defaults). */
  const ServiceInitParameters: seq<string> := ["name", "arn", "parameters", "type", "index"]
  const RdsInitParameters: seq<string> := ["name", "arn", "parameters", "type", "index"]
  const RdbmsInitParameters: seq<string> := ["name", "arn", "parameters", "type", "index", "dSourceParamKey"]

  /** The keywords the generator passes, as written. */
  const ServiceCallAsWritten: seq<string> := ["name", "id", "parameters", "type", "index"]
  const RdsCallAsWritten: seq<string> := ["name", "id", "parameters", "vpcConnectionArn", "index"]
  const RdbmsCallAsWritten: seq<string> := ["name", "id", "parameters", "vpcConnectionArn", "index"]

  const UnexpectedKeyword: string := "__init__() got an unexpected keyword argument"
  const MissingArgument: string := "__init__() missing a required argument"

  /** Python's binding of keyword arguments to a signature without defaults. */
  function BindKeywords(signature: seq<string>, given: seq<string>): (r: Result<()>)
    ensures r.Ok? <==> (forall g :: g in given ==> g in signature) && (forall p :: p in signature ==> p in given)
    ensures r.Err? ==> r.error.TypeError?
  {
    if exists g :: g in given && g !in signature then Err(TypeError(UnexpectedKeyword))
    else if exists p :: p in signature && p !in given then Err(TypeError(MissingArgument))
    else Ok(())
  }

  /** As written, every one of the three constructor calls is rejected before the constructor runs. */
  lemma ConstructorCallsAsWrittenFail()
    ensures BindKeywords(ServiceInitParameters, ServiceCallAsWritten) == Err(TypeError(UnexpectedKeyword))
    ensures BindKeywords(RdsInitParameters, RdsCallAsWritten) == Err(TypeError(UnexpectedKeyword))
    ensures BindKeywords(RdbmsInitParameters, RdbmsCallAsWritten) == Err(TypeError(UnexpectedKeyword))
  {
    assert "id" in ServiceCallAsWritten && "id" !in ServiceInitParameters;
    assert "id" in RdsCallAsWritten && "id" !in RdsInitParameters;
    assert "id" in RdbmsCallAsWritten && "id" !in RdbmsInitParameters;
  }

  /** The keywords the corrected calls pass: the id as `arn`, the engine as `type`. */
  const ServiceCall: seq<string> := ["name", "arn", "parameters", "type", "index"]
  const RdsCall: seq<string> := ["name", "arn", "parameters", "type", "index"]
  const RdbmsCall: seq<string> := ["name", "arn", "parameters", "type", "index", "dSourceParamKey"]

  /** The corrected calls bind. */
  lemma CorrectedConstructorCallsBind()
    ensures BindKeywords(ServiceInitParameters, ServiceCall).Ok?
    ensures BindKeywords(RdsInitParameters, RdsCall).Ok?
    ensures BindKeywords(RdbmsInitParameters, RdbmsCall).Ok?
  {
  }
}
