/**
 * What the handler writes besides the resources: the Outputs of both
 * documents, the parameter fill-in list handed to the operators, and the
 * S3 object key of an uploaded file.
 */
module Artifacts {
  import opened Results
  import opened Json
  import opened Text
  import opened Analyses
  import opened Documents

  // `generate_template_outputs`.

  const TemplateIdDescription: string :=
    "Id of the QuickSight Template that models the analysis provided as input to the lambda synthesizer function"
  const AnalysisUrlDescription: string :=
    "URL of the QuickSight Analysis modeled by the QuickSight template, will be the same id for all the stages"
  const AnalysisUrlHost: string := ".quicksight.aws.amazon.com/sn/analyses/"

  /** An output declaration `{'Description': ..., 'Value': ...}`. */
  function OutputEntry(description: string, value: string): (j: Json)
    ensures Field(j, "Value") == Ok(JStr(value)) && Field(j, "Description") == Ok(JStr(description))
  {
    JObj(OrdMap(["Description", "Value"], map["Description" := JStr(description), "Value" := JStr(value)]))
  }

  /** The console URL of an analysis in a region. */
  function AnalysisUrl(region: string, analysisId: string): string {
    "https://" + region + AnalysisUrlHost + analysisId
  }

  /** The Outputs of the source-account document. */
  function TemplateIdOutputs(templateId: string): Json {
    JObj(Single("TemplateId", OutputEntry(TemplateIdDescription, templateId)))
  }

  /** The Outputs of the target-account document. */
  function AnalysisUrlOutputs(region: string, analysisId: string): Json {
    JObj(Single("AnalysisURL", OutputEntry(AnalysisUrlDescription, AnalysisUrl(region, analysisId))))
  }

  /** Splitting at the last '/' undoes appending a '/'-free text to one that ends in '/'. */
  lemma AfterLastOfJoin(a: string, b: string)
    requires |a| > 0 && a[|a| - 1] == '/' && '/' !in b
    ensures AfterLast(a + b, "/") == b
  {
    var s := a + b;
    var r := AfterLast(s, "/");
    if |r| > |b| {
      var j := |r| - |b| - 1;
      assert r[j] == s[|s| - |r| + j] == a[|a| - 1];
      assert MatchAt(r, "/", j) by {
        assert r[j..j + 1] == [r[j]];
      }
      assert false;
    } else if |r| < |b| {
      SeparatorInsideTail(a, b, r);
      assert false;
    } else {
      assert r == s[|s| - |r|..] == b;
    }
  }

  /** A '/' just before a suffix shorter than `b` lies inside `b`. */
  lemma SeparatorInsideTail(a: string, b: string, r: string)
    requires |r| < |b| && IsSuffix(r, a + b) && PrecededBy(a + b, r, "/")
    ensures '/' in b
  {
    var s := a + b;
    var k := |b| - |r| - 1;
    assert s[..|s| - |r|][|s| - |r| - 1..] == [s[|a| + k]];
    assert b[k] == s[|a| + k];
  }

  /** The last segment of the analysis URL is the analysis id. */
  lemma AnalysisUrlNamesAnalysis(region: string, analysisId: string)
    requires '/' !in analysisId
    ensures AfterLast(AnalysisUrl(region, analysisId), "/") == analysisId
    ensures Path(AnalysisUrlOutputs(region, analysisId), ["AnalysisURL", "Value"])
            == Ok(JStr(AnalysisUrl(region, analysisId)))
  {
    var head := "https://" + region + AnalysisUrlHost;
    assert AnalysisUrl(region, analysisId) == head + analysisId;
    AfterLastOfJoin(head, analysisId);
    var outputs := AnalysisUrlOutputs(region, analysisId);
    PathCons(outputs, "AnalysisURL", ["Value"]);
    assert Path(OutputEntry(AnalysisUrlDescription, AnalysisUrl(region, analysisId)), ["Value"])
           == Field(OutputEntry(AnalysisUrlDescription, AnalysisUrl(region, analysisId)), "Value");
  }

  /** The source document's output holds the template id. */
  lemma TemplateIdOutputsValue(templateId: string)
    ensures Path(TemplateIdOutputs(templateId), ["TemplateId", "Value"]) == Ok(JStr(templateId))
    ensures TemplateIdOutputs(templateId).JObj? && TemplateIdOutputs(templateId).obj.keys == ["TemplateId"]
  {
    var outputs := TemplateIdOutputs(templateId);
    PathCons(outputs, "TemplateId", ["Value"]);
    assert Path(OutputEntry(TemplateIdDescription, templateId), ["Value"])
           == Field(OutputEntry(TemplateIdDescription, templateId), "Value");
  }

  /**
   * `generate_template_outputs(analysis, source, dest)`: both Outputs
   * sections are replaced; when the two documents are one, the analysis URL
   * written second is what remains.
   */
  method GenerateTemplateOutputs(analysis: AnalysisDef, source: TemplateDoc, dest: TemplateDoc, region: string)
    modifies source, dest
    ensures dest.outputs == Some(AnalysisUrlOutputs(region, analysis.id))
    ensures source != dest ==> source.outputs == Some(TemplateIdOutputs(analysis.templateId))
    ensures source.Current() == old(source.Current()) && dest.Current() == old(dest.Current())
  {
    source.outputs := Some(TemplateIdOutputs(analysis.templateId));
    dest.outputs := Some(AnalysisUrlOutputs(region, analysis.id));
  }

  // `generate_cloudformation_template_parameters`.

  const NumberSample: string := "1234"
  const FillMe: string := "<fill_me>"

  /** The declared type is the string 'Number'. */
  predicate IsNumber(declaredType: Json) {
    declaredType == JStr("Number")
  }

  /** One fill-in entry `{'ParameterKey': key, 'ParameterValue': sample}`. */
  function ParameterEntry(key: string, isNumber: bool): (j: Json)
    ensures Field(j, "ParameterKey") == Ok(JStr(key))
    ensures Field(j, "ParameterValue") == Ok(JStr(if isNumber then NumberSample else FillMe))
  {
    JObj(OrdMap(["ParameterKey", "ParameterValue"],
                map["ParameterKey" := JStr(key),
                    "ParameterValue" := JStr(if isNumber then NumberSample else FillMe)]))
  }

  /** The fill-in entries of the listed parameters, or the error of the first without a Type. */
  function FillIn(params: OrdMap<Json>, keys: seq<string>): Result<seq<Json>>
    requires forall k :: k in keys ==> k in params.vals
  {
    if keys == [] then Ok([])
    else
      var entries :- FillIn(params, keys[..|keys| - 1]);
      var key := keys[|keys| - 1];
      var declaredType :- Field(params.vals[key], "Type");
      Ok(entries + [ParameterEntry(key, IsNumber(declaredType))])
  }

  /** The list is built exactly when every listed declaration has a Type. */
  lemma {:induction false} FillInOk(params: OrdMap<Json>, keys: seq<string>)
    requires forall k :: k in keys ==> k in params.vals
    ensures FillIn(params, keys).Ok? <==> forall i :: 0 <= i < |keys| ==> Field(params.vals[keys[i]], "Type").Ok?
  {
    if keys != [] {
      var init := keys[..|keys| - 1];
      FillInOk(params, init);
      assert forall i :: 0 <= i < |init| ==> init[i] == keys[i];
    }
  }

  /** One entry per parameter, in key order: "1234" for a Number, "<fill_me>" otherwise. */
  lemma {:induction false} FillInEntries(params: OrdMap<Json>, keys: seq<string>)
    requires forall k :: k in keys ==> k in params.vals
    requires FillIn(params, keys).Ok?
    ensures |FillIn(params, keys).value| == |keys|
    ensures forall i :: 0 <= i < |keys| ==>
      Field(params.vals[keys[i]], "Type").Ok?
      && FillIn(params, keys).value[i] == ParameterEntry(keys[i], IsNumber(Field(params.vals[keys[i]], "Type").value))
  {
    if keys != [] {
      var init := keys[..|keys| - 1];
      FillInEntries(params, init);
      assert forall i :: 0 <= i < |init| ==> init[i] == keys[i];
    }
  }

  /** A failure is the KeyError or TypeError of the first declaration without a Type. */
  lemma {:induction false} FillInFails(params: OrdMap<Json>, keys: seq<string>)
    requires forall k :: k in keys ==> k in params.vals
    requires FillIn(params, keys).Err?
    ensures exists i :: (0 <= i < |keys| && Field(params.vals[keys[i]], "Type").Err?
      && FillIn(params, keys).error == Field(params.vals[keys[i]], "Type").error
      && forall j :: 0 <= j < i ==> Field(params.vals[keys[j]], "Type").Ok?)
  {
    var init := keys[..|keys| - 1];
    assert forall i :: 0 <= i < |init| ==> init[i] == keys[i];
    if FillIn(params, init).Err? {
      FillInFails(params, init);
      var i :| 0 <= i < |init| && Field(params.vals[init[i]], "Type").Err?
        && FillIn(params, init).error == Field(params.vals[init[i]], "Type").error
        && forall j :: 0 <= j < i ==> Field(params.vals[init[j]], "Type").Ok?;
      assert Field(params.vals[keys[i]], "Type").Err?;
    } else {
      FillInOk(params, init);
      var i := |keys| - 1;
      assert Field(params.vals[keys[i]], "Type").Err?;
    }
  }

  /** `generate_cloudformation_template_parameters(doc)`: the loop over the Parameters. */
  method TemplateParameterList(params: OrdMap<Json>) returns (r: Result<seq<Json>>)
    requires params.Valid()
    ensures r == FillIn(params, params.keys)
  {
    var entries: seq<Json> := [];
    var i := 0;
    while i < |params.keys|
      invariant 0 <= i <= |params.keys|
      invariant FillIn(params, params.keys[..i]) == Ok(entries)
    {
      var key := params.keys[i];
      assert params.keys[..i + 1][..i] == params.keys[..i];
      var declaredType := Field(params.vals[key], "Type");
      if declaredType.Err? {
        assert FillIn(params, params.keys[..i + 1]) == Err(declaredType.error);
        FillInPrefixFails(params, params.keys, i + 1);
        return Err(declaredType.error);
      }
      entries := entries + [ParameterEntry(key, IsNumber(declaredType.value))];
      i := i + 1;
    }
    assert params.keys[..i] == params.keys;
    return Ok(entries);
  }

  /** A prefix that fails makes the whole list fail the same way. */
  lemma {:induction false} FillInPrefixFails(params: OrdMap<Json>, keys: seq<string>, n: nat)
    requires forall k :: k in keys ==> k in params.vals
    requires n <= |keys| && FillIn(params, keys[..n]).Err?
    ensures FillIn(params, keys) == FillIn(params, keys[..n])
    decreases |keys| - n
  {
    if n < |keys| {
      assert keys[..n + 1][..n] == keys[..n];
      FillInPrefixFails(params, keys, n + 1);
    } else {
      assert keys[..n] == keys;
    }
  }

  // The object key of `uploadFileToS3`.

  /**
   * The key an uploaded file is stored under: the object name (the file's
   * base name by default) after the prefix, joined by one '/' unless the
   * prefix already ends in one; an empty prefix fails on `prefix[-1]`.
   */
  function ObjectKey(filename: string, objectName: Option<string>, prefix: Option<string>): Result<string> {
    var name := if objectName.Some? then objectName.value else BaseName(filename);
    if prefix.None? then Ok(name)
    else if prefix.value == [] then Err(IndexError)
    else if prefix.value[|prefix.value| - 1] != '/' then Ok(prefix.value + "/" + name)
    else Ok(prefix.value + name)
  }

  /** The object name follows the prefix after exactly one '/'. */
  lemma ObjectKeyJoins(filename: string, objectName: Option<string>, prefix: string)
    requires prefix != []
    ensures var name := if objectName.Some? then objectName.value else BaseName(filename);
      var key := ObjectKey(filename, objectName, Some(prefix));
      key.Ok? && EndsWith(key.value, "/" + name)
      && (if prefix[|prefix| - 1] == '/' then key.value == prefix + name
          else key.value == prefix + "/" + name)
  {
    var name := if objectName.Some? then objectName.value else BaseName(filename);
    var head := if prefix[|prefix| - 1] == '/' then prefix[..|prefix| - 1] else prefix;
    assert ObjectKey(filename, objectName, Some(prefix)) == Ok(head + ("/" + name)) by {
      if prefix[|prefix| - 1] == '/' {
        assert prefix == head + "/";
        assert (head + "/") + name == head + ("/" + name);
      } else {
        assert prefix + "/" + name == prefix + ("/" + name);
      }
    }
    SuffixOfJoin(head, "/" + name);
  }

  lemma SuffixOfJoin(a: string, b: string)
    ensures EndsWith(a + b, b)
  {
    assert (a + b)[|a + b| - |b|..] == b;
  }

  /** Writing the prefix with or without its trailing '/' gives the same key. */
  lemma ObjectKeyTrailingSlash(filename: string, objectName: Option<string>, prefix: string)
    requires prefix != [] && prefix[|prefix| - 1] != '/'
    ensures ObjectKey(filename, objectName, Some(prefix)) == ObjectKey(filename, objectName, Some(prefix + "/"))
  {
    var name := if objectName.Some? then objectName.value else BaseName(filename);
    assert (prefix + "/")[|prefix + "/"| - 1] == '/';
    assert prefix + "/" + name == (prefix + "/") + name;
  }

  /** With the default object name, the key's base name is the file's. */
  lemma ObjectKeyKeepsBaseName(filename: string, prefix: Option<string>)
    requires prefix.Some? ==> prefix.value != []
    ensures ObjectKey(filename, None, prefix).Ok?
    ensures BaseName(ObjectKey(filename, None, prefix).value) == BaseName(filename)
  {
    var name := BaseName(filename);
    if prefix.None? {
      AfterLastWithoutSeparator(name, "/");
    } else {
      var p := prefix.value;
      if p[|p| - 1] == '/' {
        AfterLastOfJoin(p, name);
      } else {
        assert p + "/" + name == (p + "/") + name;
        AfterLastOfJoin(p + "/", name);
      }
    }
  }
}
