/** The analysis helper record (`helpers/analysis.py`). */
module Analyses {
  import opened Json
  import opened Text
  import opened DataSets

  /** The resource key of an analysis: "ANA" and the id without hyphens. */
  function AnalysisCfnId(id: string): (key: string)
    ensures |key| >= 3 && key[..3] == "ANA"
    ensures '-' !in key
  {
    "ANA" + RemoveHyphens(id)
  }

  /** A `QSAnalysisDef` instance. */
  class AnalysisDef {
    var name: string
    var id: string
    var cfnId: string
    var qsUser: string
    var qsRegion: string
    var qsAdminRegion: string
    var accountId: string
    var templateId: string
    /** Data-set id -> helper record, in discovery order. */
    var datasets: OrdMap<DataSetDef>

    constructor (name: string, id: string, qsUser: string, qsRegion: string, qsAdminRegion: string,
                 accountId: string, templateId: string)
      ensures this.name == name && this.id == id && this.cfnId == AnalysisCfnId(id)
      ensures this.qsUser == qsUser && this.qsRegion == qsRegion && this.qsAdminRegion == qsAdminRegion
      ensures this.accountId == accountId && this.templateId == templateId
      ensures this.datasets == EmptyMap()
    {
      this.name := name;
      this.id := id;
      this.cfnId := AnalysisCfnId(id);
      this.qsUser := qsUser;
      this.qsRegion := qsRegion;
      this.qsAdminRegion := qsAdminRegion;
      this.accountId := accountId;
      this.templateId := templateId;
      this.datasets := EmptyMap();
    }

    /** `getDependingDatasets()`: the data-set resource keys, in the dict's order. */
    function GetDependingDatasets(): (keys: seq<string>)
      reads this
      ensures |keys| == |datasets.keys|
      ensures forall i :: 0 <= i < |keys| ==> keys[i] == DataSetCfnId(datasets.keys[i]) && '-' !in keys[i]
    {
      DataSetCfnIds(datasets.keys)
    }
  }
}
