/**
 * What the generators read from outside: the QuickSight describe/list
 * responses of the source account, the resource skeleton files, the clock
 * and the region.
 */
module QuickSight {
  import opened Results
  import opened Json
  import opened Dates

  /** The `DataSource` object of a `describe_data_source` response. */
  datatype DataSourceRecord = DataSourceRecord(
    name: string,
    dsType: string,                      // 'Type'
    parameters: Option<Json>,            // 'DataSourceParameters', when present
    vpcConnectionProperties: Option<Json>,
    hasSecretArn: bool)                  // whether 'SecretArn' is present

  /** The `DataSet` object of a `describe_data_set` response. */
  datatype DataSetRecord = DataSetRecord(
    name: string,
    importMode: string,
    physicalTableMap: Json,
    logicalTableMap: Json,
    others: OrdMap<Json>)                // every other top-level entry (ColumnGroups, RowLevelPermissionDataSet, ...)

  /** The source account as the QuickSight API reports it. */
  datatype Account = Account(
    dataSources: map<string, DataSourceRecord>,
    dataSets: map<string, DataSetRecord>,
    scheduleLists: map<string, seq<Json>>,         // data-set id -> `list_refresh_schedules` entries
    schedules: map<(string, string), Json>)        // (data-set id, schedule id) -> `describe_refresh_schedule`

  function DescribeDataSource(a: Account, id: string): (r: Result<DataSourceRecord>)
    ensures r.Ok? <==> id in a.dataSources
    ensures r.Err? ==> r.error == NotFound(id)
  {
    if id in a.dataSources then Ok(a.dataSources[id]) else Err(NotFound(id))
  }

  function DescribeDataSet(a: Account, id: string): (r: Result<DataSetRecord>)
    ensures r.Ok? <==> id in a.dataSets
    ensures r.Err? ==> r.error == NotFound(id)
  {
    if id in a.dataSets then Ok(a.dataSets[id]) else Err(NotFound(id))
  }

  function ListRefreshSchedules(a: Account, dataSetId: string): (r: Result<seq<Json>>)
    ensures r.Ok? <==> dataSetId in a.scheduleLists
  {
    if dataSetId in a.scheduleLists then Ok(a.scheduleLists[dataSetId]) else Err(NotFound(dataSetId))
  }

  function DescribeRefreshSchedule(a: Account, dataSetId: string, scheduleId: string): (r: Result<Json>)
    ensures r.Ok? <==> (dataSetId, scheduleId) in a.schedules
  {
    if (dataSetId, scheduleId) in a.schedules then Ok(a.schedules[(dataSetId, scheduleId)])
    else Err(NotFound(scheduleId))
  }

  /** The contents of the YAML skeleton files under `resources/`. */
  datatype Skeletons = Skeletons(
    dataSource: Json,
    dataSet: Json,
    refreshSchedule: Json,
    analysis: Json,
    templateResources: OrdMap<Json>,     // `template_CFN_skel.yaml`, Resources
    templateParameters: OrdMap<Json>,    // `template_CFN_skel.yaml`, Parameters
    destParameters: OrdMap<Json>)        // `dest_CFN_skel.yaml`, Parameters

  /** `datetime.now()`: always a representable date and time. */
  type Instant = d: DateTime | Representable(d) witness DateTime(2000, 1, 1, 0, 0, 0)

  /** Everything a generator consults besides the document it extends. */
  datatype Env = Env(account: Account, skeletons: Skeletons, now: Instant, region: string)
}
