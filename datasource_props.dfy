/**
 * What the data-source generator declares as template parameters: under
 * REMAP_DS one parameter per remapped setting, with the type the deploy
 * stage must supply, plus the shared VpcConnectionArn and DSSecretArn; and
 * names that never collide between data sources of different indices.
 */
module DataSourceProps {
  import opened Results
  import opened Json
  import opened Text
  import opened DataSources
  import opened QuickSight
  import opened Documents
  import opened DataSourceGen

  /**
   * The settings REMAP_DS turns into parameters, as (name prefix, Type),
   * written out per engine; each parameter's name is its prefix followed by
   * the data source's index.
   */
  function RemapTable(rec: DataSourceRecord): seq<(string, string)> {
    var t := rec.dsType;
    if t == S3.Name() then
      [(t + "DestinationBucket", "String"), (t + "DestinationKey", "String")]
    else if t == ATHENA.Name() then
      [(t + "Workgroup", "String")]
    else if t in RdbmsNames then
      HostOrRdsTable(rec) + (if t == REDSHIFT.Name() then [(t + "ClusterId", "String")] else [])
    else []
  }

  /** The connection settings of a database engine: through RDS, or by host. */
  function HostOrRdsTable(rec: DataSourceRecord): seq<(string, string)> {
    if HasRdsParameters(rec)
    then [("RDSInstanceID", "String"), ("RDSDBName", "String")]
    else [(rec.dsType + "DBName", "String"), (rec.dsType + "Port", "Number"), (rec.dsType + "Host", "String")]
  }

  /** The declarations REMAP_DS adds for the engine's own settings. */
  function EngineDecls(rec: DataSourceRecord, id: string, index: nat): seq<(string, Json)> {
    if rec.dsType == S3.Name() then S3Decls(rec, id, index)
    else if rec.dsType == ATHENA.Name() then AthenaDecls(rec, id, index)
    else if rec.dsType in RdbmsNames then RdbmsDecls(rec, id, index)
    else []
  }

  /** The declared names, in order. */
  function Names(decls: seq<(string, Json)>): (names: seq<string>)
    ensures |names| == |decls|
    ensures forall i :: 0 <= i < |decls| ==> names[i] == decls[i].0
  {
    if decls == [] then [] else [decls[0].0] + Names(decls[1..])
  }

  /** The Type a declaration gives its parameter. */
  function DeclaredType(decl: (string, Json)): Result<Json> {
    Field(decl.1, "Type")
  }

  /** A remap declaration carries the type it was given. */
  lemma RemapDeclType(name: string, what: string, rec: DataSourceRecord, id: string, index: nat,
                      stage: string, note: bool, typ: string)
    ensures DeclaredType(RemapDecl(name, what, rec, id, index, stage, note, typ)) == Ok(JStr(typ))
  {
  }

  /** Two lists agree name for name, and each declaration has the listed type. */
  predicate Matches(decls: seq<(string, Json)>, table: seq<(string, string)>, index: nat) {
    |decls| == |table|
    && forall i :: 0 <= i < |table| ==>
      decls[i].0 == Indexed(table[i].0, index) && DeclaredType(decls[i]) == Ok(JStr(table[i].1))
  }

  lemma MatchesAppend(d1: seq<(string, Json)>, t1: seq<(string, string)>, d2: seq<(string, Json)>,
                      t2: seq<(string, string)>, index: nat)
    requires Matches(d1, t1, index) && Matches(d2, t2, index)
    ensures Matches(d1 + d2, t1 + t2, index)
  {
    forall i | 0 <= i < |t1 + t2|
      ensures (d1 + d2)[i].0 == Indexed((t1 + t2)[i].0, index) && DeclaredType((d1 + d2)[i]) == Ok(JStr((t1 + t2)[i].1))
    {
      if i >= |t1| {
        assert (d1 + d2)[i] == d2[i - |t1|] && (t1 + t2)[i] == t2[i - |t1|];
      }
    }
  }

  /** The engine's declarations are the table, name for name and type for type. */
  lemma EngineDeclsMatchTable(rec: DataSourceRecord, id: string, index: nat)
    ensures Matches(EngineDecls(rec, id, index), RemapTable(rec), index)
  {
    if rec.dsType == S3.Name() {
      S3Matches(rec, id, index);
    } else if rec.dsType == ATHENA.Name() {
      AthenaMatches(rec, id, index);
    } else if rec.dsType in RdbmsNames {
      RdbmsMatches(rec, id, index);
    }
  }

  lemma S3Matches(rec: DataSourceRecord, id: string, index: nat)
    requires rec.dsType == S3.Name()
    ensures Matches(S3Decls(rec, id, index), RemapTable(rec), index)
  {
    var d := S3Decls(rec, id, index);
    var table := RemapTable(rec);
    assert table == [(rec.dsType + "DestinationBucket", "String"), (rec.dsType + "DestinationKey", "String")];
    forall i | 0 <= i < 2
      ensures d[i].0 == Indexed(table[i].0, index) && DeclaredType(d[i]) == Ok(JStr(table[i].1))
    {
      if i == 0 {
        RemapDeclType(d[0].0, "S3 bucket to use", rec, id, index, " in the stage", true, "String");
      } else {
        RemapDeclType(d[1].0, "S3 key to use", rec, id, index, " in the stage", true, "String");
      }
    }
  }

  lemma AthenaMatches(rec: DataSourceRecord, id: string, index: nat)
    requires rec.dsType == ATHENA.Name()
    ensures Matches(AthenaDecls(rec, id, index), RemapTable(rec), index)
  {
    var d := AthenaDecls(rec, id, index);
    RemapDeclType(d[0].0, "Athena Workgroup to use", rec, id, index, " in the stage", true, "String");
  }

  /** The service engines are not database engines. */
  lemma EnginesExclusive()
    ensures S3.Name() !in RdbmsNames && ATHENA.Name() !in RdbmsNames
    ensures S3.Name() !in SecretNames && ATHENA.Name() !in SecretNames
  {
  }

  lemma RdbmsMatches(rec: DataSourceRecord, id: string, index: nat)
    requires rec.dsType in RdbmsNames
    ensures Matches(RdbmsDecls(rec, id, index), RemapTable(rec), index)
  {
    if rec.dsType == REDSHIFT.Name() {
      RdbmsTable(rec);
      HostOrRdsMatches(rec, id, index);
      ClusterMatches(rec, id, index);
    } else {
      UnclusteredMatches(rec, id, index);
    }
  }

  lemma UnclusteredMatches(rec: DataSourceRecord, id: string, index: nat)
    requires rec.dsType in RdbmsNames && rec.dsType != REDSHIFT.Name()
    ensures Matches(RdbmsDecls(rec, id, index), RemapTable(rec), index)
  {
    RdbmsTable(rec);
    HostOrRdsMatches(rec, id, index);
    assert RdbmsDecls(rec, id, index) == if HasRdsParameters(rec) then RdsDecls(rec, id, index) else HostDecls(rec, id, index);
  }

  lemma RdbmsTable(rec: DataSourceRecord)
    requires rec.dsType in RdbmsNames
    ensures RemapTable(rec) ==
      HostOrRdsTable(rec) + (if rec.dsType == REDSHIFT.Name() then [(rec.dsType + "ClusterId", "String")] else [])
  {
    EnginesExclusive();
  }

  lemma ClusterMatches(rec: DataSourceRecord, id: string, index: nat)
    requires rec.dsType == REDSHIFT.Name()
    requires Matches(if HasRdsParameters(rec) then RdsDecls(rec, id, index) else HostDecls(rec, id, index),
                     HostOrRdsTable(rec), index)
    ensures Matches(RdbmsDecls(rec, id, index), HostOrRdsTable(rec) + [(rec.dsType + "ClusterId", "String")], index)
  {
    var first := if HasRdsParameters(rec) then RdsDecls(rec, id, index) else HostDecls(rec, id, index);
    var c := ClusterDecls(rec, id, index);
    assert RdbmsDecls(rec, id, index) == first + c;
    ClusterDeclMatches(rec, id, index);
    MatchesAppend(first, HostOrRdsTable(rec), c, [(rec.dsType + "ClusterId", "String")], index);
  }

  lemma ClusterDeclMatches(rec: DataSourceRecord, id: string, index: nat)
    ensures Matches(ClusterDecls(rec, id, index), [(rec.dsType + "ClusterId", "String")], index)
  {
    var c := ClusterDecls(rec, id, index);
    RemapDeclType(c[0].0, "ClusterId", rec, id, index, " to use in the stage", false, "String");
  }

  lemma HostOrRdsMatches(rec: DataSourceRecord, id: string, index: nat)
    ensures Matches(if HasRdsParameters(rec) then RdsDecls(rec, id, index) else HostDecls(rec, id, index),
                    HostOrRdsTable(rec), index)
  {
    if HasRdsParameters(rec) {
      RdsMatches(rec, id, index);
    } else {
      HostMatches(rec, id, index);
    }
  }

  lemma RdsMatches(rec: DataSourceRecord, id: string, index: nat)
    ensures Matches(RdsDecls(rec, id, index), [("RDSInstanceID", "String"), ("RDSDBName", "String")], index)
  {
    var d := RdsDecls(rec, id, index);
    var table := [("RDSInstanceID", "String"), ("RDSDBName", "String")];
    forall i | 0 <= i < 2
      ensures d[i].0 == Indexed(table[i].0, index) && DeclaredType(d[i]) == Ok(JStr(table[i].1))
    {
      if i == 0 {
        RemapDeclType(d[0].0, "RDS Instance Id", rec, id, index, " to use in the stage", true, "String");
      } else {
        RemapDeclType(d[1].0, "Database name", rec, id, index, " to use in the stage", true, "String");
      }
    }
  }

  lemma HostMatches(rec: DataSourceRecord, id: string, index: nat)
    ensures Matches(HostDecls(rec, id, index),
                    [(rec.dsType + "DBName", "String"), (rec.dsType + "Port", "Number"), (rec.dsType + "Host", "String")],
                    index)
  {
    var d := HostDecls(rec, id, index);
    var table := [(rec.dsType + "DBName", "String"), (rec.dsType + "Port", "Number"), (rec.dsType + "Host", "String")];
    forall i | 0 <= i < 3
      ensures d[i].0 == Indexed(table[i].0, index) && DeclaredType(d[i]) == Ok(JStr(table[i].1))
    {
      if i == 0 {
        RemapDeclType(d[0].0, "Database name", rec, id, index, " to use in the stage", true, "String");
      } else if i == 1 {
        RemapDeclType(d[1].0, "Database port", rec, id, index, " to use in the stage", true, "Number");
      } else {
        RemapDeclType(d[2].0, "Database host", rec, id, index, " to use in the stage", true, "String");
      }
    }
  }

  // Names in the table.

  /** A prefix a number can follow without the two running together. */
  predicate NumberPrefix(p: string) {
    |p| > 0 && !EndsWithDigit(p)
  }

  lemma StemSuffix(t: string, x: string)
    requires |x| > 0 && !('0' <= x[|x| - 1] <= '9')
    ensures NumberPrefix(t + x)
  {
    assert (t + x)[|t + x| - 1] == x[|x| - 1];
  }

  lemma StemDistinct(t: string, x: string, y: string)
    requires x != y
    ensures t + x != t + y
  {
    assert x == (t + x)[|t|..] && y == (t + y)[|t|..];
  }

  /** Every prefix in the table can be followed by an index unambiguously. */
  lemma TablePrefixes(rec: DataSourceRecord)
    ensures forall e :: e in RemapTable(rec) ==> NumberPrefix(e.0)
  {
    var t := rec.dsType;
    StemSuffix(t, "DestinationBucket");
    StemSuffix(t, "DestinationKey");
    StemSuffix(t, "Workgroup");
    StemSuffix(t, "ClusterId");
    StemSuffix(t, "DBName");
    StemSuffix(t, "Port");
    StemSuffix(t, "Host");
    StemSuffix("", "RDSInstanceID");
    StemSuffix("", "RDSDBName");
    if t in RdbmsNames {
      RdbmsTable(rec);
    }
  }

  /** A declaration list in which no name repeats. */
  predicate DistinctNames(decls: seq<(string, Json)>) {
    forall a, b :: 0 <= a < b < |decls| ==> decls[a].0 != decls[b].0
  }

  /** A table in which no prefix repeats. */
  predicate DistinctPrefixes(table: seq<(string, string)>) {
    forall a, b :: 0 <= a < b < |table| ==> table[a].0 != table[b].0
  }

  lemma TableDistinct(rec: DataSourceRecord)
    ensures DistinctPrefixes(RemapTable(rec))
  {
    var t := rec.dsType;
    if t == S3.Name() {
      StemDistinct(t, "DestinationBucket", "DestinationKey");
    } else if t == ATHENA.Name() {
    } else if t in RdbmsNames {
      RdbmsTable(rec);
      HostOrRdsDistinct(rec);
      if t == REDSHIFT.Name() {
        ClusterDistinct(rec);
      }
    }
  }

  lemma HostOrRdsDistinct(rec: DataSourceRecord)
    ensures DistinctPrefixes(HostOrRdsTable(rec))
  {
    var t := rec.dsType;
    StemDistinct(t, "DBName", "Port");
    StemDistinct(t, "DBName", "Host");
    assert "Port"[0] != "Host"[0];
    StemDistinct(t, "Port", "Host");
  }

  lemma ClusterDistinct(rec: DataSourceRecord)
    requires rec.dsType == REDSHIFT.Name()
    ensures DistinctPrefixes(HostOrRdsTable(rec) + [(rec.dsType + "ClusterId", "String")])
  {
    var t := rec.dsType;
    HostOrRdsDistinct(rec);
    StemDistinct(t, "DBName", "ClusterId");
    StemDistinct(t, "Port", "ClusterId");
    StemDistinct(t, "Host", "ClusterId");
    assert |t + "ClusterId"| == 17;
  }

  /** The same index after two prefixes gives the same name only for the same prefix. */
  lemma IndexedPrefixInjective(p: string, q: string, index: nat)
    requires Indexed(p, index) == Indexed(q, index)
    ensures p == q
  {
    var s := Indexed(p, index);
    assert p == s[..|p|] && q == s[..|q|];
  }

  /** Declarations matching a table without repeated prefixes have no repeated names. */
  lemma MatchesDistinct(decls: seq<(string, Json)>, table: seq<(string, string)>, index: nat)
    requires Matches(decls, table, index) && DistinctPrefixes(table)
    ensures DistinctNames(decls)
    ensures forall i :: 0 <= i < |decls| ==> EndsWithDigit(decls[i].0)
  {
    forall a, b | 0 <= a < b < |decls|
      ensures decls[a].0 != decls[b].0
    {
      if decls[a].0 == decls[b].0 {
        IndexedPrefixInjective(table[a].0, table[b].0, index);
      }
    }
  }

  // The declarations of one data source.

  lemma SharedDistinct(rec: DataSourceRecord)
    ensures DistinctNames(SharedDecls(rec))
    ensures forall i :: 0 <= i < |SharedDecls(rec)| ==> !EndsWithDigit(SharedDecls(rec)[i].0)
  {
    SharedNamesUndigited();
    var shared := SharedDecls(rec);
    var both := rec.vpcConnectionProperties.Some? && rec.dsType in SecretNames;
    assert both ==> shared == [VpcDecl, SecretDecl];
    assert !both ==> |shared| <= 1;
    assert forall i :: 0 <= i < |shared| ==> shared[i].0 == VpcDecl.0 || shared[i].0 == SecretDecl.0;
    assert |VpcDecl.0| != |SecretDecl.0|;
  }

  lemma SharedNamesUndigited()
    ensures !EndsWithDigit(VpcDecl.0) && !EndsWithDigit(SecretDecl.0)
  {
    assert VpcDecl.0[|VpcDecl.0| - 1] == 'n';
    assert SecretDecl.0[|SecretDecl.0| - 1] == 'n';
  }

  /** The engine's declarations come before the shared ones, except for database engines. */
  lemma DeclarationsShape(rec: DataSourceRecord, id: string, index: nat, remap: bool)
    ensures Declarations(rec, id, index, remap) ==
      if !remap then SharedDecls(rec)
      else if rec.dsType in RdbmsNames then SharedDecls(rec) + EngineDecls(rec, id, index)
      else EngineDecls(rec, id, index) + SharedDecls(rec)
  {
    EnginesExclusive();
    if !remap {
      NoRemapShape(rec, id, index);
    } else if rec.dsType in RdbmsNames {
      RdbmsShape(rec, id, index);
    } else if rec.dsType == S3.Name() {
      S3Shape(rec, id, index);
    } else if rec.dsType == ATHENA.Name() {
      AthenaShape(rec, id, index);
    } else {
      OtherShape(rec, id, index);
    }
  }

  lemma NoRemapShape(rec: DataSourceRecord, id: string, index: nat)
    ensures Declarations(rec, id, index, false) == SharedDecls(rec)
  {
    assert ServiceDecls(rec, id, index, false) == [];
  }

  lemma RdbmsShape(rec: DataSourceRecord, id: string, index: nat)
    requires rec.dsType in RdbmsNames
    ensures Declarations(rec, id, index, true) == SharedDecls(rec) + RdbmsDecls(rec, id, index)
  {
    EnginesExclusive();
    assert rec.dsType != S3.Name() && rec.dsType != ATHENA.Name();
    assert ServiceDecls(rec, id, index, true) == [];
  }

  lemma S3Shape(rec: DataSourceRecord, id: string, index: nat)
    requires rec.dsType == S3.Name()
    ensures Declarations(rec, id, index, true) == S3Decls(rec, id, index) + SharedDecls(rec)
  {
    EnginesExclusive();
    assert ServiceDecls(rec, id, index, true) == S3Decls(rec, id, index);
  }

  lemma AthenaShape(rec: DataSourceRecord, id: string, index: nat)
    requires rec.dsType == ATHENA.Name()
    ensures Declarations(rec, id, index, true) == AthenaDecls(rec, id, index) + SharedDecls(rec)
  {
    EnginesExclusive();
    assert ServiceDecls(rec, id, index, true) == AthenaDecls(rec, id, index);
  }

  lemma OtherShape(rec: DataSourceRecord, id: string, index: nat)
    requires rec.dsType != S3.Name() && rec.dsType != ATHENA.Name() && rec.dsType !in RdbmsNames
    ensures Declarations(rec, id, index, true) == SharedDecls(rec)
  {
    assert ServiceDecls(rec, id, index, true) == [];
  }

  lemma JoinDistinct(e: seq<(string, Json)>, sh: seq<(string, Json)>)
    requires DistinctNames(e) && forall i :: 0 <= i < |e| ==> EndsWithDigit(e[i].0)
    requires DistinctNames(sh) && forall i :: 0 <= i < |sh| ==> !EndsWithDigit(sh[i].0)
    ensures DistinctNames(e + sh) && DistinctNames(sh + e)
  {
    forall a, b | 0 <= a < b < |e + sh|
      ensures (e + sh)[a].0 != (e + sh)[b].0 && (sh + e)[a].0 != (sh + e)[b].0
    {
      if b < |e| {
        assert (e + sh)[a] == e[a] && (e + sh)[b] == e[b];
      } else if a >= |e| {
        assert (e + sh)[a] == sh[a - |e|] && (e + sh)[b] == sh[b - |e|];
      } else {
        assert (e + sh)[a] == e[a] && (e + sh)[b] == sh[b - |e|];
      }
      if b < |sh| {
        assert (sh + e)[a] == sh[a] && (sh + e)[b] == sh[b];
      } else if a >= |sh| {
        assert (sh + e)[a] == e[a - |sh|] && (sh + e)[b] == e[b - |sh|];
      } else {
        assert (sh + e)[a] == sh[a] && (sh + e)[b] == e[b - |sh|];
      }
    }
  }

  /** No data source declares the same parameter twice. */
  lemma DeclarationsDistinct(rec: DataSourceRecord, id: string, index: nat, remap: bool)
    ensures DistinctNames(Declarations(rec, id, index, remap))
  {
    DeclarationsShape(rec, id, index, remap);
    SharedDistinct(rec);
    EngineDeclsMatchTable(rec, id, index);
    TableDistinct(rec);
    MatchesDistinct(EngineDecls(rec, id, index), RemapTable(rec), index);
    JoinDistinct(EngineDecls(rec, id, index), SharedDecls(rec));
  }

  /** A declaration of a newly added data source is what the parameter now holds. */
  lemma DeclaredValue(sec: Sections, id: string, index: nat, remap: bool, env: Env, decl: (string, Json))
    requires DataSourceSpec(sec, id, index, remap, env).Ok? && DataSourceCfnId(id) !in sec.resources.vals
    requires decl in Declarations(env.account.dataSources[id], id, index, remap)
    ensures var params := DataSourceSpec(sec, id, index, remap, env).value.0.parameters;
      decl.0 in params.vals && params.vals[decl.0] == decl.1
  {
    var decls := Declarations(env.account.dataSources[id], id, index, remap);
    DeclarationsDistinct(env.account.dataSources[id], id, index, remap);
    var j :| 0 <= j < |decls| && decls[j] == decl;
    PutAllValue(sec.parameters, decls, j);
  }

  // What a new data source leaves in the template's Parameters.

  /**
   * Under REMAP_DS every setting of the engine becomes a parameter named by
   * its prefix and the data source's index, declared with the type the
   * deploy stage has to supply.
   */
  lemma RemapDeclaresEverySetting(sec: Sections, id: string, index: nat, env: Env)
    requires DataSourceSpec(sec, id, index, true, env).Ok? && DataSourceCfnId(id) !in sec.resources.vals
    ensures var params := DataSourceSpec(sec, id, index, true, env).value.0.parameters;
      var table := RemapTable(env.account.dataSources[id]);
      forall k :: 0 <= k < |table| ==>
        Indexed(table[k].0, index) in params.vals
        && Field(params.vals[Indexed(table[k].0, index)], "Type") == Ok(JStr(table[k].1))
  {
    var rec := env.account.dataSources[id];
    var engine := EngineDecls(rec, id, index);
    EngineDeclsMatchTable(rec, id, index);
    DeclarationsShape(rec, id, index, true);
    forall k | 0 <= k < |RemapTable(rec)|
      ensures var params := DataSourceSpec(sec, id, index, true, env).value.0.parameters;
        Indexed(RemapTable(rec)[k].0, index) in params.vals
        && Field(params.vals[Indexed(RemapTable(rec)[k].0, index)], "Type") == Ok(JStr(RemapTable(rec)[k].1))
    {
      assert engine[k] in Declarations(rec, id, index, true);
      DeclaredValue(sec, id, index, true, env, engine[k]);
    }
  }

  /**
   * A data source behind a VPC connection, or one that needs a secret,
   * adds the shared String parameter for it, with or without REMAP_DS.
   */
  lemma SharedParametersDeclared(sec: Sections, id: string, index: nat, remap: bool, env: Env)
    requires DataSourceSpec(sec, id, index, remap, env).Ok? && DataSourceCfnId(id) !in sec.resources.vals
    ensures var params := DataSourceSpec(sec, id, index, remap, env).value.0.parameters;
      var rec := env.account.dataSources[id];
      (rec.vpcConnectionProperties.Some? ==>
         "VpcConnectionArn" in params.vals && Field(params.vals["VpcConnectionArn"], "Type") == Ok(JStr("String")))
      && (rec.dsType in SecretNames ==>
         "DSSecretArn" in params.vals && Field(params.vals["DSSecretArn"], "Type") == Ok(JStr("String")))
  {
    var rec := env.account.dataSources[id];
    DeclarationsShape(rec, id, index, remap);
    if rec.vpcConnectionProperties.Some? {
      assert VpcDecl in Declarations(rec, id, index, remap);
      DeclaredValue(sec, id, index, remap, env, VpcDecl);
    }
    if rec.dsType in SecretNames {
      assert SecretDecl in Declarations(rec, id, index, remap);
      DeclaredValue(sec, id, index, remap, env, SecretDecl);
    }
  }

  /** Without REMAP_DS a data source adds at most the two shared parameters. */
  lemma WithoutRemapOnlyShared(sec: Sections, id: string, index: nat, env: Env)
    requires DataSourceSpec(sec, id, index, false, env).Ok? && DataSourceCfnId(id) !in sec.resources.vals
    ensures var params := DataSourceSpec(sec, id, index, false, env).value.0.parameters;
      forall k :: k in params.vals ==> k in sec.parameters.vals || k == "VpcConnectionArn" || k == "DSSecretArn"
  {
    DeclarationsShape(env.account.dataSources[id], id, index, false);
  }

  /**
   * Data sources with different indices never declare the same
   * engine-specific parameter: only the shared ones can coincide.
   */
  lemma RemapNamesDisjoint(rec1: DataSourceRecord, id1: string, i: nat, rec2: DataSourceRecord, id2: string, j: nat)
    requires i != j
    ensures forall a, b :: a in EngineDecls(rec1, id1, i) && b in EngineDecls(rec2, id2, j) ==> a.0 != b.0
  {
    var e1, e2 := EngineDecls(rec1, id1, i), EngineDecls(rec2, id2, j);
    EngineDeclsMatchTable(rec1, id1, i);
    EngineDeclsMatchTable(rec2, id2, j);
    TablePrefixes(rec1);
    TablePrefixes(rec2);
    forall a, b | a in e1 && b in e2
      ensures a.0 != b.0
    {
      var x :| 0 <= x < |e1| && e1[x] == a;
      var y :| 0 <= y < |e2| && e2[y] == b;
      var p, q := RemapTable(rec1)[x].0, RemapTable(rec2)[y].0;
      assert RemapTable(rec1)[x] in RemapTable(rec1) && RemapTable(rec2)[y] in RemapTable(rec2);
      if a.0 == b.0 {
        NumberedNameInjective(p, q, i, j);
      }
    }
  }
}
