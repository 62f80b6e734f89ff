/**
 * `generateQSTemplateCFN` and `generateAnalysisFromTemplateCFN`: the
 * AWS::QuickSight::Template of the source account, built from the analysis,
 * and the AWS::QuickSight::Analysis of the target account, built from that
 * template; both reference every data set of the analysis.
 */
module TemplateGen {
  import opened Results
  import opened Json
  import opened Text
  import opened DataSets
  import opened Analyses
  import opened Documents
  import opened DataSetGen

  const TemplateResourceKey: string := "CICDQSTemplate"
  const TemplateSuffix: string := "-template"
  const TemplateNamePrefix: string := "CI CD Template for analysis "
  const AnalysisIdPlaceholder: string := "{analysis_id}"
  const TemplateArnPrefix: string := "arn:aws:quicksight:${AWS::Region}:${SourceAccountID}:template/"

  /** Where the template's properties name the analysis it is made from. */
  const AnalysisArnPath: seq<string> := ["SourceEntity", "SourceAnalysis", "Arn", "Fn::Sub"]
  /** Where the template's properties list its data sets. */
  const TemplateRefsPath: seq<string> := ["SourceEntity", "SourceAnalysis", "DataSetReferences"]
  /** Where the analysis' properties name the template it is made from. */
  const SourceTemplateArnPath: seq<string> := ["SourceEntity", "SourceTemplate", "Arn"]
  /** Where the analysis' properties list its data sets. */
  const AnalysisRefsPath: seq<string> := ["SourceEntity", "SourceTemplate", "DataSetReferences"]

  /**
   * The template id: the analysis name with every space made a hyphen,
   * followed by "-template".
   */
  function TemplateIdOf(analysisName: string): (id: string)
    ensures |id| == |analysisName| + |TemplateSuffix| && id[|analysisName|..] == TemplateSuffix
    ensures forall i :: 0 <= i < |analysisName| ==>
      id[i] == if analysisName[i] == ' ' then '-' else analysisName[i]
    ensures ' ' !in id
  {
    ReplaceCharSpec(analysisName, ' ', '-');
    var sanitized := ReplaceAll(analysisName, " ", "-");
    assert forall i :: 0 <= i < |sanitized| ==> sanitized[i] != ' ';
    sanitized + TemplateSuffix
  }

  // The data-set references, the same in the template and in the analysis.

  /** One entry of a DataSetReferences list. */
  function DataSetReference(dataSetId: string, placeholder: string): (j: Json)
    ensures j.JObj? && j.obj.keys == ["DataSetArn", "DataSetPlaceholder"]
    ensures Field(j, "DataSetArn") == Ok(Sub(DataSetArnPrefix + dataSetId))
    ensures Field(j, "DataSetPlaceholder") == Ok(JStr(placeholder))
  {
    var arn := JObj(OrdMap(["Fn::Sub"], map["Fn::Sub" := JStr(DataSetArnPrefix + dataSetId)]));
    JObj(OrdMap(["DataSetArn", "DataSetPlaceholder"],
                map["DataSetArn" := arn, "DataSetPlaceholder" := JStr(placeholder)]))
  }

  /** The placeholder names of the listed data sets, in the listed order. */
  function PlaceholdersOf(ids: seq<string>, defs: map<string, DataSetDef>): (names: seq<string>)
    requires forall k :: k in ids ==> k in defs
    reads defs.Values
    ensures |names| == |ids|
    ensures forall i :: 0 <= i < |ids| ==> names[i] == defs[ids[i]].placeholderName
  {
    if ids == [] then [] else [defs[ids[0]].placeholderName] + PlaceholdersOf(ids[1..], defs)
  }

  /** The references to the listed data sets, one each, in order. */
  function References(ids: seq<string>, placeholders: seq<string>): (refs: seq<Json>)
    requires |ids| == |placeholders|
  {
    seq(|ids|, i requires 0 <= i < |ids| => DataSetReference(ids[i], placeholders[i]))
  }

  /** The references to one more data set of a list. */
  lemma ReferencesPrefix(ids: seq<string>, placeholders: seq<string>, i: nat)
    requires |ids| == |placeholders| && i < |ids|
    ensures References(ids[..i + 1], placeholders[..i + 1])
            == References(ids[..i], placeholders[..i]) + [DataSetReference(ids[i], placeholders[i])]
  {
  }

  /**
   * The `for datasetId in datasetDict` loop of both generators. The
   * placeholder names are read before the loop rather than in it; the loop
   * writes no data set, so they are the same names.
   */
  method DataSetReferences(datasets: OrdMap<DataSetDef>) returns (refs: seq<Json>)
    requires datasets.Valid()
    ensures refs == References(datasets.keys, PlaceholdersOf(datasets.keys, datasets.vals))
  {
    var names := PlaceholdersOf(datasets.keys, datasets.vals);
    refs := [];
    var i := 0;
    while i < |datasets.keys|
      invariant 0 <= i <= |datasets.keys|
      invariant refs == References(datasets.keys[..i], names[..i])
    {
      ReferencesPrefix(datasets.keys, names, i);
      refs := refs + [DataSetReference(datasets.keys[i], names[i])];
      i := i + 1;
    }
    assert datasets.keys[..i] == datasets.keys;
    assert names[..i] == names;
  }

  // The template.

  /** The three edits made to the template's properties before the loop. */
  function TemplateHeader(props: Json, analysisName: string, analysisArn: string): Result<Json> {
    var sub :- Path(props, AnalysisArnPath);
    var text :- AsStr(sub);
    var analysisId := AfterLast(analysisArn, "/");
    var p1 :- SetPath(props, AnalysisArnPath, JStr(ReplaceAll(text, AnalysisIdPlaceholder, analysisId)));
    var p2 :- SetField(p1, "TemplateId", JStr(TemplateIdOf(analysisName)));
    SetField(p2, "Name", JStr(TemplateNamePrefix + analysisName))
  }

  /** The template's properties: the header, then the data-set references. */
  function TemplateProperties(props: Json, analysisName: string, analysisArn: string, refs: seq<Json>)
    : Result<Json>
  {
    var header :- TemplateHeader(props, analysisName, analysisArn);
    SetPath(header, TemplateRefsPath, JList(refs))
  }

  /** The Resources of the template document. */
  function TemplateSpec(resources: OrdMap<Json>, analysisName: string, analysisArn: string, refs: seq<Json>)
    : Result<OrdMap<Json>>
  {
    var entry :- Field(JObj(resources), TemplateResourceKey);
    var props :- Field(entry, "Properties");
    var props' :- TemplateProperties(props, analysisName, analysisArn, refs);
    var entry' :- SetField(entry, "Properties", props');
    Ok(resources.Put(TemplateResourceKey, entry'))
  }

  /** The header fails exactly when the skeleton's analysis ARN is missing or not a string. */
  lemma TemplateHeaderOk(props: Json, analysisName: string, analysisArn: string)
    ensures TemplateHeader(props, analysisName, analysisArn).Ok?
            <==> Path(props, AnalysisArnPath).Ok? && Path(props, AnalysisArnPath).value.JStr?
    ensures TemplateHeader(props, analysisName, analysisArn).Ok? ==>
      Path(TemplateHeader(props, analysisName, analysisArn).value, TemplateRefsPath[..2]).Ok?
      && Path(TemplateHeader(props, analysisName, analysisArn).value, TemplateRefsPath[..2]).value.JObj?
  {
    if Path(props, AnalysisArnPath).Ok? && Path(props, AnalysisArnPath).value.JStr? {
      var text := Path(props, AnalysisArnPath).value.s;
      var v := JStr(ReplaceAll(text, AnalysisIdPlaceholder, AfterLast(analysisArn, "/")));
      PathPrefixOk(props, AnalysisArnPath, 3);
      SetPathOk(props, AnalysisArnPath, v);
      var p1 := SetPath(props, AnalysisArnPath, v).value;
      SetPathPrefix(props, AnalysisArnPath, v, 2);
      assert AnalysisArnPath[..2] == TemplateRefsPath[..2];
      var p2 := SetField(p1, "TemplateId", JStr(TemplateIdOf(analysisName))).value;
      KeepsPath(p1, "TemplateId", JStr(TemplateIdOf(analysisName)), TemplateRefsPath[..2]);
      KeepsPath(p2, "Name", JStr(TemplateNamePrefix + analysisName), TemplateRefsPath[..2]);
    }
  }

  /** What the header writes. */
  lemma TemplateHeaderWrites(props: Json, analysisName: string, analysisArn: string)
    requires TemplateHeader(props, analysisName, analysisArn).Ok?
    ensures var h := TemplateHeader(props, analysisName, analysisArn).value;
      Path(h, AnalysisArnPath)
        == Ok(JStr(ReplaceAll(Path(props, AnalysisArnPath).value.s, AnalysisIdPlaceholder, AfterLast(analysisArn, "/"))))
      && Field(h, "TemplateId") == Ok(JStr(TemplateIdOf(analysisName)))
      && Field(h, "Name") == Ok(JStr(TemplateNamePrefix + analysisName))
  {
    var text := Path(props, AnalysisArnPath).value.s;
    var v := JStr(ReplaceAll(text, AnalysisIdPlaceholder, AfterLast(analysisArn, "/")));
    SetPathThenPath(props, AnalysisArnPath, v);
    var p1 := SetPath(props, AnalysisArnPath, v).value;
    var p2 := SetField(p1, "TemplateId", JStr(TemplateIdOf(analysisName))).value;
    KeepsPath(p1, "TemplateId", JStr(TemplateIdOf(analysisName)), AnalysisArnPath);
    KeepsPath(p2, "Name", JStr(TemplateNamePrefix + analysisName), AnalysisArnPath);
  }

  /**
   * The template's properties fail exactly when the skeleton's analysis ARN
   * is missing or not a string; otherwise they name the analysis by the last
   * segment of its ARN, carry the template id and name, and list one
   * reference per data set.
   */
  lemma TemplatePropertiesShape(props: Json, analysisName: string, analysisArn: string, refs: seq<Json>)
    ensures TemplateProperties(props, analysisName, analysisArn, refs).Ok?
            <==> Path(props, AnalysisArnPath).Ok? && Path(props, AnalysisArnPath).value.JStr?
    ensures TemplateProperties(props, analysisName, analysisArn, refs).Ok? ==>
      var p := TemplateProperties(props, analysisName, analysisArn, refs).value;
      Path(p, AnalysisArnPath)
        == Ok(JStr(ReplaceAll(Path(props, AnalysisArnPath).value.s, AnalysisIdPlaceholder, AfterLast(analysisArn, "/"))))
      && Field(p, "TemplateId") == Ok(JStr(TemplateIdOf(analysisName)))
      && Field(p, "Name") == Ok(JStr(TemplateNamePrefix + analysisName))
      && Path(p, TemplateRefsPath) == Ok(JList(refs))
  {
    TemplateHeaderOk(props, analysisName, analysisArn);
    if TemplateHeader(props, analysisName, analysisArn).Ok? {
      var h := TemplateHeader(props, analysisName, analysisArn).value;
      TemplateHeaderWrites(props, analysisName, analysisArn);
      assert TemplateRefsPath[..|TemplateRefsPath| - 1] == TemplateRefsPath[..2];
      SetPathOk(h, TemplateRefsPath, JList(refs));
      SetPathThenPath(h, TemplateRefsPath, JList(refs));
      assert Diverge(TemplateRefsPath, AnalysisArnPath);
      SetPathElsewhere(h, TemplateRefsPath, JList(refs), AnalysisArnPath);
      SetPathElsewhere(h, TemplateRefsPath, JList(refs), ["TemplateId"]);
      SetPathElsewhere(h, TemplateRefsPath, JList(refs), ["Name"]);
    }
  }

  /**
   * The template's Resources fail exactly when the skeleton lacks the
   * CICDQSTemplate entry or its Properties, or the analysis ARN in them.
   */
  lemma TemplateSpecOk(resources: OrdMap<Json>, analysisName: string, analysisArn: string, refs: seq<Json>)
    ensures TemplateSpec(resources, analysisName, analysisArn, refs).Ok?
            <==> (Path(JObj(resources), [TemplateResourceKey, "Properties"]).Ok?
                  && var props := Path(JObj(resources), [TemplateResourceKey, "Properties"]).value;
                  Path(props, AnalysisArnPath).Ok? && Path(props, AnalysisArnPath).value.JStr?)
  {
    var top := JObj(resources);
    if Field(top, TemplateResourceKey).Ok? {
      var entry := Field(top, TemplateResourceKey).value;
      PathCons(top, TemplateResourceKey, ["Properties"]);
      assert Path(entry, ["Properties"]) == Field(entry, "Properties");
      if Field(entry, "Properties").Ok? {
        TemplatePropertiesShape(Field(entry, "Properties").value, analysisName, analysisArn, refs);
      }
    } else {
      assert Path(top, [TemplateResourceKey, "Properties"]).Err?;
    }
  }

  /**
   * Only the CICDQSTemplate entry of the Resources changes, and only in its
   * Properties, which become the template's properties.
   */
  lemma TemplateSpecWrites(resources: OrdMap<Json>, props: Json, analysisName: string, analysisArn: string,
                           refs: seq<Json>)
    requires Path(JObj(resources), [TemplateResourceKey, "Properties"]) == Ok(props)
    requires TemplateSpec(resources, analysisName, analysisArn, refs).Ok?
    ensures var r := TemplateSpec(resources, analysisName, analysisArn, refs).value;
      r.keys == resources.keys
      && (forall k :: k in resources.vals && k != TemplateResourceKey ==> k in r.vals && r.vals[k] == resources.vals[k])
    ensures Path(JObj(TemplateSpec(resources, analysisName, analysisArn, refs).value), [TemplateResourceKey, "Properties"])
            == TemplateProperties(props, analysisName, analysisArn, refs)
  {
    var top := JObj(resources);
    var entry := Field(top, TemplateResourceKey).value;
    PathCons(top, TemplateResourceKey, ["Properties"]);
    assert Path(entry, ["Properties"]) == Field(entry, "Properties");
    var entry' := SetField(entry, "Properties", TemplateProperties(props, analysisName, analysisArn, refs).value).value;
    var res := resources.Put(TemplateResourceKey, entry');
    assert TemplateSpec(resources, analysisName, analysisArn, refs) == Ok(res);
    PathCons(JObj(res), TemplateResourceKey, ["Properties"]);
    assert Path(entry', ["Properties"]) == Field(entry', "Properties");
  }

  /**
   * `generateQSTemplateCFN(analysisName, datasetDict, analysisArn)`: a new
   * template document from the skeleton, and the template id.
   */
  method GenerateTemplate(analysisName: string, datasets: OrdMap<DataSetDef>, analysisArn: string,
                          skelResources: OrdMap<Json>, skelParameters: OrdMap<Json>)
    returns (r: Result<(TemplateDoc, string)>)
    requires datasets.Valid()
    ensures var spec := TemplateSpec(skelResources, analysisName, analysisArn,
                                     References(datasets.keys, PlaceholdersOf(datasets.keys, datasets.vals)));
      (r.Ok? <==> spec.Ok?) && (r.Err? ==> r.error == spec.error)
      && (r.Ok? ==> fresh(r.value.0) && r.value.0.Current() == Sections(spec.value, skelParameters)
                    && r.value.0.outputs == None && r.value.1 == TemplateIdOf(analysisName))
  {
    var entry := Field(JObj(skelResources), TemplateResourceKey);
    if entry.Err? {
      return Err(entry.error);
    }
    var props := Field(entry.value, "Properties");
    if props.Err? {
      return Err(props.error);
    }
    var header := TemplateHeader(props.value, analysisName, analysisArn);
    if header.Err? {
      return Err(header.error);
    }
    var refs := DataSetReferences(datasets);
    var props' := SetPath(header.value, TemplateRefsPath, JList(refs));
    if props'.Err? {
      return Err(props'.error);
    }
    var entry' := SetField(entry.value, "Properties", props'.value).value;
    var doc := new TemplateDoc(skelResources.Put(TemplateResourceKey, entry'), skelParameters);
    return Ok((doc, TemplateIdOf(analysisName)));
  }

  // The analysis.

  /** The three edits made to the analysis' properties before the loop. */
  function AnalysisHeader(props: Json, analysisId: string, analysisName: string, templateId: string): Result<Json> {
    var p1 :- SetField(props, "AnalysisId", JStr(analysisId));
    var p2 :- SetField(p1, "Name", JStr(analysisName));
    SetPath(p2, SourceTemplateArnPath, Sub(TemplateArnPrefix + templateId))
  }

  /** The analysis resource built from the skeleton. */
  function AnalysisSpec(skel: Json, analysisId: string, analysisName: string, templateId: string,
                        refs: seq<Json>, depends: seq<string>): Result<Json>
  {
    var props :- Field(skel, "Properties");
    var header :- AnalysisHeader(props, analysisId, analysisName, templateId);
    var props' :- SetPath(header, AnalysisRefsPath, JList(refs));
    var skel' :- SetField(skel, "Properties", props');
    SetField(skel', "DependsOn", JList(JStrs(depends)))
  }

  /** A list of strings as JSON. */
  function JStrs(ss: seq<string>): (js: seq<Json>)
    ensures |js| == |ss| && forall i :: 0 <= i < |ss| ==> js[i] == JStr(ss[i])
  {
    if ss == [] then [] else [JStr(ss[0])] + JStrs(ss[1..])
  }

  /** The header fails exactly when the SourceEntity/SourceTemplate dict is missing. */
  lemma AnalysisHeaderOk(props: Json, analysisId: string, analysisName: string, templateId: string)
    ensures AnalysisHeader(props, analysisId, analysisName, templateId).Ok?
            <==> Path(props, SourceTemplateArnPath[..2]).Ok? && Path(props, SourceTemplateArnPath[..2]).value.JObj?
  {
    var v := Sub(TemplateArnPrefix + templateId);
    assert SourceTemplateArnPath[..|SourceTemplateArnPath| - 1] == SourceTemplateArnPath[..2];
    if props.JObj? {
      var p1 := SetField(props, "AnalysisId", JStr(analysisId)).value;
      KeepsPath(props, "AnalysisId", JStr(analysisId), SourceTemplateArnPath[..2]);
      var p2 := SetField(p1, "Name", JStr(analysisName)).value;
      KeepsPath(p1, "Name", JStr(analysisName), SourceTemplateArnPath[..2]);
      SetPathOk(p2, SourceTemplateArnPath, v);
    } else {
      assert Path(props, SourceTemplateArnPath[..2]).Err?;
    }
  }

  /** What the header writes; the SourceTemplate dict stays a dict. */
  lemma AnalysisHeaderWrites(props: Json, analysisId: string, analysisName: string, templateId: string)
    requires AnalysisHeader(props, analysisId, analysisName, templateId).Ok?
    ensures var h := AnalysisHeader(props, analysisId, analysisName, templateId).value;
      Field(h, "AnalysisId") == Ok(JStr(analysisId)) && Field(h, "Name") == Ok(JStr(analysisName))
      && Path(h, SourceTemplateArnPath) == Ok(Sub(TemplateArnPrefix + templateId))
      && Path(h, AnalysisRefsPath[..2]).Ok? && Path(h, AnalysisRefsPath[..2]).value.JObj?
  {
    var v := Sub(TemplateArnPrefix + templateId);
    var p1 := SetField(props, "AnalysisId", JStr(analysisId)).value;
    var p2 := SetField(p1, "Name", JStr(analysisName)).value;
    SetPathThenPath(p2, SourceTemplateArnPath, v);
    SetPathPrefix(p2, SourceTemplateArnPath, v, 2);
    assert SourceTemplateArnPath[..2] == AnalysisRefsPath[..2];
    SetPathElsewhere(p2, SourceTemplateArnPath, v, ["AnalysisId"]);
    SetPathElsewhere(p2, SourceTemplateArnPath, v, ["Name"]);
  }

  /**
   * The analysis resource fails exactly when the skeleton's Properties lack
   * the SourceEntity/SourceTemplate dict; otherwise it carries the analysis
   * id and name, the template's ARN, one reference per data set and a
   * DependsOn on every data set.
   */
  lemma AnalysisSpecShape(skel: Json, analysisId: string, analysisName: string, templateId: string,
                          refs: seq<Json>, depends: seq<string>)
    ensures var r := AnalysisSpec(skel, analysisId, analysisName, templateId, refs, depends);
      r.Ok? <==> (Field(skel, "Properties").Ok?
                  && Path(Field(skel, "Properties").value, SourceTemplateArnPath[..2]).Ok?
                  && Path(Field(skel, "Properties").value, SourceTemplateArnPath[..2]).value.JObj?)
    ensures var r := AnalysisSpec(skel, analysisId, analysisName, templateId, refs, depends);
      r.Ok? ==> (Path(r.value, ["Properties", "AnalysisId"]) == Ok(JStr(analysisId))
        && Path(r.value, ["Properties", "Name"]) == Ok(JStr(analysisName))
        && Path(r.value, ["Properties"] + SourceTemplateArnPath) == Ok(Sub(TemplateArnPrefix + templateId))
        && Path(r.value, ["Properties"] + AnalysisRefsPath) == Ok(JList(refs))
        && Field(r.value, "DependsOn") == Ok(JList(JStrs(depends))))
  {
    if Field(skel, "Properties").Ok? {
      var props := Field(skel, "Properties").value;
      AnalysisHeaderOk(props, analysisId, analysisName, templateId);
      var h := AnalysisHeader(props, analysisId, analysisName, templateId);
      if h.Ok? {
        AnalysisHeaderWrites(props, analysisId, analysisName, templateId);
        assert AnalysisRefsPath[..|AnalysisRefsPath| - 1] == AnalysisRefsPath[..2];
        SetPathOk(h.value, AnalysisRefsPath, JList(refs));
        var p4 := SetPath(h.value, AnalysisRefsPath, JList(refs)).value;
        SetPathThenPath(h.value, AnalysisRefsPath, JList(refs));
        assert Diverge(AnalysisRefsPath, SourceTemplateArnPath);
        SetPathElsewhere(h.value, AnalysisRefsPath, JList(refs), SourceTemplateArnPath);
        SetPathElsewhere(h.value, AnalysisRefsPath, JList(refs), ["AnalysisId"]);
        SetPathElsewhere(h.value, AnalysisRefsPath, JList(refs), ["Name"]);
        var skel' := SetField(skel, "Properties", p4).value;
        var r := SetField(skel', "DependsOn", JList(JStrs(depends))).value;
        assert AnalysisSpec(skel, analysisId, analysisName, templateId, refs, depends) == Ok(r);
        assert Field(r, "Properties") == Ok(p4);
        PathCons(r, "Properties", ["AnalysisId"]);
        PathCons(r, "Properties", ["Name"]);
        PathCons(r, "Properties", SourceTemplateArnPath);
        PathCons(r, "Properties", AnalysisRefsPath);
      }
    }
  }

  /** The references of an analysis to its data sets, in its order. */
  function AnalysisReferences(analysis: AnalysisDef): seq<Json>
    requires analysis.datasets.Valid()
    reads analysis, analysis.datasets.vals.Values
  {
    References(analysis.datasets.keys, PlaceholdersOf(analysis.datasets.keys, analysis.datasets.vals))
  }

  /** The body of `generateAnalysisFromTemplateCFN`: the analysis resource, not yet stored. */
  method AnalysisResource(analysis: AnalysisDef, templateId: string, skel: Json) returns (r: Result<Json>)
    requires analysis.datasets.Valid()
    ensures r == AnalysisSpec(skel, analysis.id, analysis.name, templateId, AnalysisReferences(analysis),
                              analysis.GetDependingDatasets())
  {
    var props := Field(skel, "Properties");
    if props.Err? {
      return Err(props.error);
    }
    var header := AnalysisHeader(props.value, analysis.id, analysis.name, templateId);
    if header.Err? {
      return Err(header.error);
    }
    var refs := DataSetReferences(analysis.datasets);
    var props' := SetPath(header.value, AnalysisRefsPath, JList(refs));
    if props'.Err? {
      return Err(props'.error);
    }
    var skel' := SetField(skel, "Properties", props'.value).value;
    var depends := analysis.GetDependingDatasets();
    r := SetField(skel', "DependsOn", JList(JStrs(depends)));
  }

  /**
   * `generateAnalysisFromTemplateCFN(analysisObj, templateId, appendContent)`:
   * the analysis resource stored under its key, replacing any entry there.
   */
  method GenerateAnalysis(doc: TemplateDoc, analysis: AnalysisDef, templateId: string, skel: Json)
    returns (r: Result<()>)
    requires analysis.datasets.Valid()
    modifies doc
    ensures var spec := old(AnalysisSpec(skel, analysis.id, analysis.name, templateId, AnalysisReferences(analysis),
                                         analysis.GetDependingDatasets()));
      (r.Ok? <==> spec.Ok?)
      && (r.Ok? ==> doc.resources == old(doc.resources).Put(analysis.cfnId, spec.value))
      && (r.Err? ==> r.error == spec.error && doc.resources == old(doc.resources))
    ensures doc.parameters == old(doc.parameters) && doc.outputs == old(doc.outputs)
  {
    var resource := AnalysisResource(analysis, templateId, skel);
    if resource.Err? {
      return Err(resource.error);
    }
    doc.resources := doc.resources.Put(analysis.cfnId, resource.value);
    return Ok(());
  }
}
