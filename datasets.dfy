/** The data-set helper record (`helpers/datasets.py`). */
module DataSets {
  import opened Results
  import opened Json
  import opened Text
  import opened DataSources

  datatype ImportMode = SPICE | DIRECT_QUERY {
    function Name(): string {
      match this
      case SPICE => "SPICE"
      case DIRECT_QUERY => "DIRECT_QUERY"
    }
  }

  /** The resource key of a data set: "DSet" and the id without hyphens. */
  function DataSetCfnId(id: string): (key: string)
    ensures |key| >= 4 && key[..4] == "DSet"
    ensures '-' !in key
  {
    "DSet" + RemoveHyphens(id)
  }

  /** The resource keys of several data sets, in order. */
  function DataSetCfnIds(ids: seq<string>): (keys: seq<string>)
    ensures |keys| == |ids|
    ensures forall i :: 0 <= i < |ids| ==> keys[i] == DataSetCfnId(ids[i])
  {
    if ids == [] then [] else [DataSetCfnId(ids[0])] + DataSetCfnIds(ids[1..])
  }

  const ListIndexMessage: string := "list indices must be integers or slices, not str"
  const StringIndexMessage: string := "string indices must be integers"
  const NotIterableMessage: string := "argument is not iterable"
  const ImportModeMessage: string := "resources.datasets.QSDataSetDef Error:importMode must be of type ImportMode"

  /**
   * The `refreshSchedules` argument as the constructor reads it:
   * `'RefreshSchedules' in arg` and then `arg['RefreshSchedules']`.
   * Some(v) replaces the default, None keeps it; a list holding the string,
   * a string containing it and a non-iterable all raise TypeError.
   */
  function ScheduleArgument(arg: Json): (r: Result<Option<Json>>)
    ensures r.Ok? && r.value.Some? <==> arg.JObj? && "RefreshSchedules" in arg.obj.vals
    ensures r.Ok? && r.value.Some? ==> r.value.value == arg.obj.vals["RefreshSchedules"]
    ensures r.Err? <==> arg.JNull? || arg.JBool? || arg.JInt?
                        || (arg.JList? && JStr("RefreshSchedules") in arg.items)
                        || (arg.JStr? && Occurs(arg.s, "RefreshSchedules"))
    ensures r.Err? ==> r.error.TypeError?
  {
    match arg
    case JObj(m) => Ok(if "RefreshSchedules" in m.vals then Some(m.vals["RefreshSchedules"]) else None)
    case JList(items) =>
      if JStr("RefreshSchedules") in items then Err(TypeError(ListIndexMessage))
      else Ok(None)
    case JStr(s) =>
      if Occurs(s, "RefreshSchedules") then Err(TypeError(StringIndexMessage))
      else Ok(None)
    case _ => Err(TypeError(NotIterableMessage))
  }

  /** The schedule list a record keeps: the one given, or the class default `[]`. */
  function SchedulesOrDefault(given: Option<Json>): Json {
    match given
    case Some(v) => v
    case None => JList([])
  }

  /** What the generators read from a `QSDataSetDef`. */
  datatype DataSetInfo = DataSetInfo(name: string, id: string, importMode: ImportMode, physicalTableMap: seq<string>,
                                     placeholderName: string)

  /** A `QSDataSetDef` instance. */
  class DataSetDef {
    var name: string
    var id: string
    var cfnId: string
    var placeholderName: string
    var physicalTableMap: seq<string>
    var refreshSchedules: Json
    var importMode: ImportMode
    var dependingDataSources: seq<Option<DataSourceDef>>

    /** The fields once the arguments have been checked. */
    constructor (name: string, id: string, importMode: ImportMode, placeholderName: string,
                 refreshSchedules: Json, physicalTableMap: seq<string>)
      ensures this.name == name && this.id == id && this.cfnId == DataSetCfnId(id)
      ensures this.placeholderName == placeholderName && this.physicalTableMap == physicalTableMap
      ensures this.refreshSchedules == refreshSchedules && this.importMode == importMode
      ensures this.dependingDataSources == []
    {
      this.name := name;
      this.id := id;
      this.cfnId := DataSetCfnId(id);
      this.placeholderName := placeholderName;
      this.physicalTableMap := physicalTableMap;
      this.refreshSchedules := refreshSchedules;
      this.importMode := importMode;
      this.dependingDataSources := [];
    }

    /** The fields the generators read. */
    function Info(): DataSetInfo
      reads this
    {
      DataSetInfo(name, id, importMode, physicalTableMap, placeholderName)
    }

    /**
     * `QSDataSetDef(...)`: the schedule list comes from the argument's
     * 'RefreshSchedules' entry (the class default `[]` otherwise); an import
     * mode that is not an ImportMode raises a bare Exception.
     */
    static method Create(name: string, id: string, importMode: Option<ImportMode>, placeholderName: string,
                         refreshSchedules: Json, physicalTableMap: seq<string>) returns (r: Result<DataSetDef>)
      ensures r.Err? <==> ScheduleArgument(refreshSchedules).Err? || importMode.None?
      ensures ScheduleArgument(refreshSchedules).Ok? && importMode.None? ==> r.Err? && r.error.Failure?
      ensures r.Ok? ==> fresh(r.value) && r.value.id == id && r.value.cfnId == DataSetCfnId(id)
                        && r.value.name == name && r.value.placeholderName == placeholderName
                        && r.value.physicalTableMap == physicalTableMap
                        && r.value.importMode == importMode.value && r.value.dependingDataSources == []
      ensures r.Ok? ==> r.value.refreshSchedules == SchedulesOrDefault(ScheduleArgument(refreshSchedules).value)
    {
      var given :- ScheduleArgument(refreshSchedules);
      var schedules := SchedulesOrDefault(given);
      if importMode.None? {
        return Err(Failure(ImportModeMessage));
      }
      var d := new DataSetDef(name, id, importMode.value, placeholderName, schedules, physicalTableMap);
      return Ok(d);
    }
  }
}
