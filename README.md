# QuickSight CloudFormation synthesiser, modelled in Dafny

This project models the core of the Lambda function that turns a QuickSight
analysis in a source account into CloudFormation templates. The templates
re-create that analysis and everything it depends on in the deployment
stages. The modelled core:

- **Helper records.**
  - `QSDataSourceDef` and its service, RDS and database-engine subclasses: the name, the id taken from the ARN, the CloudFormation key `DS<id>` and the connection settings each one keeps.
  - `QSDataSetDef`: `DSet<id>`, the import mode and the refresh-schedule argument.
  - `QSAnalysisDef`: `ANA<id>` and the keys of the data sets it depends on.
- **`generateDataSourceCFN`.** It adds one `AWS::QuickSight::DataSource` resource per data source.
  - For S3 and Athena it copies the connection settings.
  - For the database engines it copies them from under the last key of `DataSourceParameters`, through RDS or by host, plus the Redshift cluster id.
  - Under `REMAP_DS` it replaces each setting with a reference to a new template parameter, named by a prefix and the data source's index.
  - A VPC connection and a secret become references to the shared `VpcConnectionArn` and `DSSecretArn` parameters.
  - A database engine without a secret is a `ValueError`.
  - A data source whose key is already present leaves the document unchanged.
- **`generateDataSetCFN`.** It adds one `AWS::QuickSight::DataSet` resource.
  - It fills the skeleton's properties.
  - It points every physical table's `DataSourceArn` at a `Fn::Sub` of the target account.
  - It lists the data sources in `DependsOn`, adds the refresh schedules and copies the optional properties.
  - Under row-level security it generates the permission data set and its data source, then attaches the `RowLevelPermissionDataSet` setting. This happens through `generateRowLevelPermissionDataSetCFN`, which is mutually recursive with `generateDataSetCFN`.
- **`generateRefreshSchedulesCFN`.** It writes one `AWS::QuickSight::RefreshSchedule` per schedule of a SPICE data set.
  - The `Timezone` key is renamed to `TimeZone`.
  - The start date is one month later for monthly schedules and seven days later otherwise, written in the `%Y-%m-%dT%H:%M:%SZ` layout.
- **`generateQSTemplateCFN` and `generateAnalysisFromTemplateCFN`.** The template resource and its `DataSetReferences`, and the analysis resource built from the template.
- **`generate_template_outputs`, `generate_cloudformation_template_parameters` and the S3 object key.** The outputs, the parameter file and the key computed in `zipAndUploadToS3`/`uploadFileToS3`.
- **The two loops of `lambda_handler` that drive the generators.**
  - Data-source discovery numbers each newly added data source with `ds_count`, so that the parameters of different data sources never collide. A `ValueError` there ends the handler with status 500.
  - Data-set generation runs in the analysis's dictionary order.

The data-set generators take an `OrdinalRule`. `AsWritten` hands the
ordinal back as `generateRowLevelPermissionDataSetCFN` does, even after it
adds a data source. `Corrected` moves the ordinal past a newly added data
source, as `ds_count` does in the handler (see Findings). Every generator
lemma is stated for both rules.

Each generator is a pure specification function on the two template sections
it writes, `Resources` and `Parameters`. A method on the `TemplateDoc` class
extends the document in place and is proved equal to that function. Loops in
the source are `while` loops proved against recursive specification
functions.

The QuickSight describe/list APIs, the YAML skeleton files, `datetime.now()`
and `AWS_REGION` are parameters: the `Account`, `Skeletons` and `Env` records.
A missing id is a `NotFound` error. Python exceptions are the `Error`
constructors of a `Result`.

## Model

| member | source | states |
|---|---|---|
| Analyses.AnalysisCfnId | source/lambda/qs_assets_CFN_synthesizer/helpers/analysis.py:15 | the analysis key starts with "ANA" and holds no hyphen |
| Analyses.AnalysisDef.constructor | source/lambda/qs_assets_CFN_synthesizer/helpers/analysis.py:12-21 | every field is the given argument, the key is derived from the id, the data-set dictionary starts empty |
| Analyses.AnalysisDef.GetDependingDatasets | source/lambda/qs_assets_CFN_synthesizer/helpers/analysis.py:23-25 | one data-set key per dictionary entry, in dictionary order, each hyphen-free |
| DataSets.DataSetCfnId | source/lambda/qs_assets_CFN_synthesizer/helpers/datasets.py:20 | the data-set key starts with "DSet" and holds no hyphen |
| DataSets.DataSetCfnIds | source/lambda/qs_assets_CFN_synthesizer/helpers/analysis.py:25 | the key of every id, position by position |
| DataSets.ScheduleArgument | source/lambda/qs_assets_CFN_synthesizer/helpers/datasets.py:23-24 | the schedules are taken exactly when the argument is a dict holding "RefreshSchedules"; a null, boolean or number argument is a TypeError |
| DataSets.DataSetDef.constructor | source/lambda/qs_assets_CFN_synthesizer/helpers/datasets.py:17-29 | every field is the given argument, the key is derived from the id, no depending data sources yet |
| DataSets.DataSetDef.Create | source/lambda/qs_assets_CFN_synthesizer/helpers/datasets.py:17-29 | fails exactly when the schedule argument is rejected or the import mode is missing (the generic Exception); otherwise a fresh record with the key and the schedules taken from the argument |
| DataSources.SourceTypeNamed | source/lambda/qs_assets_CFN_synthesizer/helpers/datasources.py:3-14 | a name found is that member's name; a name not found belongs to no member |
| DataSources.SourceTypeNamesDistinct | source/lambda/qs_assets_CFN_synthesizer/helpers/datasources.py:3-14 | members differ exactly when their names differ and exactly when their values differ; values lie in 1..11 |
| DataSources.SourceTypeNamedRoundTrip | source/lambda/qs_assets_CFN_synthesizer/helpers/datasources.py:3-14 | looking a member up by its name gives that member back |
| DataSources.DataSourceCfnId | source/lambda/qs_assets_CFN_synthesizer/helpers/datasources.py:27 | the data-source key starts with "DS" and holds no hyphen |
| DataSources.DataSourceCfnIdCollision | source/lambda/qs_assets_CFN_synthesizer/helpers/datasources.py:27 | two ids get the same key exactly when they agree once hyphens are removed |
| DataSources.BaseDefIdentity | source/lambda/qs_assets_CFN_synthesizer/helpers/datasources.py:23-28 | the id is the ARN's suffix after the last "datasource/" (the whole ARN when that segment is absent), and the key is derived from the id |
| DataSources.NewServiceDataSourceDef | source/lambda/qs_assets_CFN_synthesizer/helpers/datasources.py:34-50 | a type outside SourceType is a TypeError; S3 without Bucket and Key, or Athena without WorkGroup, is a ValueError; otherwise the record keeps type and parameters |
| DataSources.NewRdsDataSourceDef | source/lambda/qs_assets_CFN_synthesizer/helpers/datasources.py:61-71 | each of VpcConnectionArn, InstanceId, Database and SecretArn is copied when present and empty otherwise |
| DataSources.NewRdbmsDataSourceDef | source/lambda/qs_assets_CFN_synthesizer/helpers/datasources.py:86-103 | each of VpcConnectionArn, Host, Database, Port, ClusterId and SecretArn is copied when present and takes the class default otherwise; the parameters and the parameter key are kept |
| DataSources.BindKeywords | source/lambda/qs_assets_CFN_synthesizer/createTemplateFromAnalysis.py:177 | keyword arguments bind exactly when every keyword is a parameter and every parameter is given; otherwise a TypeError |
| DataSources.ConstructorCallsAsWrittenFail | source/lambda/qs_assets_CFN_synthesizer/createTemplateFromAnalysis.py:333 | the three constructor calls, with the keywords they pass, are rejected with an unexpected-keyword TypeError |
| DataSources.CorrectedConstructorCallsBind | source/lambda/qs_assets_CFN_synthesizer/createTemplateFromAnalysis.py:266 | the corrected calls (id as `arn`, the engine as `type`, the parameter key) bind |
| Text.RemoveHyphens | source/lambda/qs_assets_CFN_synthesizer/createTemplateFromAnalysis.py:133 | the result has no hyphen, is no longer than the input and uses only the input's characters |
| Text.RemoveHyphensKeepsHyphenFree | source/lambda/qs_assets_CFN_synthesizer/createTemplateFromAnalysis.py:996 | an id without hyphens is its own sanitised form |
| Text.RemoveHyphensIdempotent | source/lambda/qs_assets_CFN_synthesizer/createTemplateFromAnalysis.py:382 | sanitising twice is sanitising once |
| Text.RemoveHyphensAppend | source/lambda/qs_assets_CFN_synthesizer/createTemplateFromAnalysis.py:551 | sanitising distributes over concatenation |
| Text.AfterLast | source/lambda/qs_assets_CFN_synthesizer/createTemplateFromAnalysis.py:404 | `split(sep)[-1]` is a suffix free of the separator, either the whole string or preceded by a separator |
| Text.SplitLastFromSpec | source/lambda/qs_assets_CFN_synthesizer/createTemplateFromAnalysis.py:441 | the left-to-right separator scan keeps the three properties of the last piece |
| Text.AfterLastWithoutSeparator | source/lambda/qs_assets_CFN_synthesizer/helpers/datasources.py:26 | when the separator does not occur, splitting returns the string unchanged |
| Text.ReplaceCharSpec | source/lambda/qs_assets_CFN_synthesizer/createTemplateFromAnalysis.py:68 | replacing one character by another keeps the length, removes the character and changes nothing else |
| Text.ReplaceAbsent | source/lambda/qs_assets_CFN_synthesizer/createTemplateFromAnalysis.py:75 | replacing a pattern that does not occur leaves the text as it is |
| Text.Digit | source/lambda/qs_assets_CFN_synthesizer/createTemplateFromAnalysis.py:153 | a decimal digit renders as a character '0'..'9' |
| Text.NatToString | source/lambda/qs_assets_CFN_synthesizer/createTemplateFromAnalysis.py:154 | `str(n)` is a non-empty string of decimal digits |
| Text.NatToStringInjective | source/lambda/qs_assets_CFN_synthesizer/createTemplateFromAnalysis.py:190 | different numbers render differently |
| Text.NumberedNameInjective | source/lambda/qs_assets_CFN_synthesizer/createTemplateFromAnalysis.py:244-245 | a prefix not ending in a digit followed by an index determines both prefix and index |
| Text.NatToStringFourDigits | source/lambda/qs_assets_CFN_synthesizer/createTemplateFromAnalysis.py:574 | a four-digit year renders in four characters |
| Text.NatToStringValue | source/lambda/qs_assets_CFN_synthesizer/createTemplateFromAnalysis.py:1009 | reading a rendered number back gives the number |
| Text.Pad2 | source/lambda/qs_assets_CFN_synthesizer/createTemplateFromAnalysis.py:574 | the zero-padded two-digit field is two characters long |
| Text.Pad2Value | source/lambda/qs_assets_CFN_synthesizer/createTemplateFromAnalysis.py:574 | the two-digit field reads back as the number |
| Text.BaseName | source/lambda/qs_assets_CFN_synthesizer/createTemplateFromAnalysis.py:654 | `os.path.basename` is a suffix of the path with no '/' |
| Dates.DaysInMonth | source/lambda/qs_assets_CFN_synthesizer/createTemplateFromAnalysis.py:568 | every month has 28 to 31 days |
| Dates.NextDay | source/lambda/qs_assets_CFN_synthesizer/createTemplateFromAnalysis.py:572 | the next day is a valid date one ordinal later, at the same time of day |
| Dates.ShiftDays | source/lambda/qs_assets_CFN_synthesizer/createTemplateFromAnalysis.py:572 | adding days gives a valid date at the same time of day |
| Dates.ShiftDaysOrdinal | source/lambda/qs_assets_CFN_synthesizer/createTemplateFromAnalysis.py:572 | adding n days moves the ordinal by exactly n |
| Dates.AddWeek | source/lambda/qs_assets_CFN_synthesizer/createTemplateFromAnalysis.py:570 | `relativedelta(weeks=+1)` is seven days later at the same time, and an OverflowError exactly when that passes year 9999 |
| Dates.AddMonth | source/lambda/qs_assets_CFN_synthesizer/createTemplateFromAnalysis.py:568 | `relativedelta(months=+1)` is the same day of the next month, clamped to that month's length, at the same time; it fails exactly in December 9999 |
| Dates.AddMonthOrdinal | source/lambda/qs_assets_CFN_synthesizer/createTemplateFromAnalysis.py:568 | one month later lies the current month's length ahead, less the days lost to clamping |
| Dates.FormatLayout | source/lambda/qs_assets_CFN_synthesizer/createTemplateFromAnalysis.py:574 | each field of the timestamp sits at its fixed position, with its separators |
| Dates.FormatParse | source/lambda/qs_assets_CFN_synthesizer/createTemplateFromAnalysis.py:574 | the written start timestamp parses back to the instant it renders |
| Json.EmptyMap | source/lambda/qs_assets_CFN_synthesizer/createTemplateFromAnalysis.py:123 | `{}` is a well-formed dict |
| Json.PutValid | source/lambda/qs_assets_CFN_synthesizer/createTemplateFromAnalysis.py:135 | `d[k] = v` keeps the dict well formed and adds exactly k to its keys |
| Json.RemoveValid | source/lambda/qs_assets_CFN_synthesizer/createTemplateFromAnalysis.py:565 | `d.pop(k)` keeps the dict well formed |
| Json.Without | source/lambda/qs_assets_CFN_synthesizer/createTemplateFromAnalysis.py:565 | removing a key from the key list keeps exactly the other keys |
| Json.Field | source/lambda/qs_assets_CFN_synthesizer/createTemplateFromAnalysis.py:122 | `j[k]` succeeds exactly on a dict holding k, with its entry; a dict without k is a KeyError |
| Json.SetField | source/lambda/qs_assets_CFN_synthesizer/createTemplateFromAnalysis.py:142 | `j[k] = v` succeeds exactly on a dict; k then reads v and every other key reads as before |
| Json.SetPathThenPath | source/lambda/qs_assets_CFN_synthesizer/createTemplateFromAnalysis.py:408 | reading back a nested path just written gives the value written |
| Json.SetPathOk | source/lambda/qs_assets_CFN_synthesizer/createTemplateFromAnalysis.py:565 | writing along a path succeeds exactly when the dict that takes the last key is reachable |
| Json.SetPathElsewhere | source/lambda/qs_assets_CFN_synthesizer/createTemplateFromAnalysis.py:574 | writing along one path leaves every diverging path as it was |
| Json.SetPathPrefix | source/lambda/qs_assets_CFN_synthesizer/createTemplateFromAnalysis.py:563 | after writing along a path every dict on the way is still a dict |
| Json.LastKey | source/lambda/qs_assets_CFN_synthesizer/createTemplateFromAnalysis.py:241 | `list(j.keys()).pop()` is the most recently inserted key of a non-empty dict, and fails otherwise |
| Json.AsStr | source/lambda/qs_assets_CFN_synthesizer/createTemplateFromAnalysis.py:404 | a value can be used as a string exactly when it is one |
| Json.ObjOf | source/lambda/qs_assets_CFN_synthesizer/createTemplateFromAnalysis.py:204-206 | a dict literal holds exactly the keys it lists and is well formed |
| Json.Single | source/lambda/qs_assets_CFN_synthesizer/createTemplateFromAnalysis.py:167-169 | a one-entry dict literal holds that entry only |
| Json.ParameterDecl | source/lambda/qs_assets_CFN_synthesizer/createTemplateFromAnalysis.py:234-239 | a parameter declaration holds Description and Type, in that order, with the given values |
| Json.PropertiesOf | source/lambda/qs_assets_CFN_synthesizer/createTemplateFromAnalysis.py:136 | a skeleton's Properties can be read exactly when it is a dict, and is that dict |
| Documents.ExtendsReflexive | source/lambda/qs_assets_CFN_synthesizer/createTemplateFromAnalysis.py:117 | a section extends itself |
| Documents.ExtendsPut | source/lambda/qs_assets_CFN_synthesizer/createTemplateFromAnalysis.py:135 | assigning one key extends the section |
| Documents.ExtendsTransitive | source/lambda/qs_assets_CFN_synthesizer/createTemplateFromAnalysis.py:1027 | extending twice extends |
| Documents.PutAll | source/lambda/qs_assets_CFN_synthesizer/createTemplateFromAnalysis.py:157-166 | `d.update({...})` extends d and holds exactly d's keys and the listed ones |
| Documents.PutAllAppend | source/lambda/qs_assets_CFN_synthesizer/createTemplateFromAnalysis.py:217-223 | two updates in a row are one update with both lists |
| Documents.PutAllOthers | source/lambda/qs_assets_CFN_synthesizer/createTemplateFromAnalysis.py:234-239 | keys no entry names keep their values |
| Documents.PutAllValue | source/lambda/qs_assets_CFN_synthesizer/createTemplateFromAnalysis.py:279-292 | with distinct keys, each listed value is the one the dict ends up holding |
| Documents.TemplateDoc.constructor | source/lambda/qs_assets_CFN_synthesizer/createTemplateFromAnalysis.py:950-953 | a new document holds the given sections and no outputs |
| QuickSight.DescribeDataSource | source/lambda/qs_assets_CFN_synthesizer/createTemplateFromAnalysis.py:121 | the description exists exactly for a known data source; an unknown id is NotFound |
| QuickSight.DescribeDataSet | source/lambda/qs_assets_CFN_synthesizer/createTemplateFromAnalysis.py:371 | the description exists exactly for a known data set; an unknown id is NotFound |
| QuickSight.ListRefreshSchedules | source/lambda/qs_assets_CFN_synthesizer/createTemplateFromAnalysis.py:553 | the list exists exactly for a data set the account reports schedules for |
| QuickSight.DescribeRefreshSchedule | source/lambda/qs_assets_CFN_synthesizer/createTemplateFromAnalysis.py:558 | the description exists exactly for a known (data set, schedule) pair |
| DataSourceGen.Indexed | source/lambda/qs_assets_CFN_synthesizer/createTemplateFromAnalysis.py:153-154 | a parameter name built from a prefix and an index ends in a digit |
| DataSourceGen.IndexedInjective | source/lambda/qs_assets_CFN_synthesizer/createTemplateFromAnalysis.py:317 | under one prefix, equal names mean equal indices |
| DataSourceGen.SourceParameters | source/lambda/qs_assets_CFN_synthesizer/createTemplateFromAnalysis.py:241 | `DataSourceParameters` can be read exactly when the description has it |
| DataSourceGen.S3Settings | source/lambda/qs_assets_CFN_synthesizer/createTemplateFromAnalysis.py:153-175 | Bucket and Key are set; under REMAP_DS the two parameters are declared, otherwise Parameters is unchanged |
| DataSourceGen.S3Step | source/lambda/qs_assets_CFN_synthesizer/createTemplateFromAnalysis.py:152-186 | Parameters gains the S3 declarations exactly for a remapped S3 source |
| DataSourceGen.AthenaSettings | source/lambda/qs_assets_CFN_synthesizer/createTemplateFromAnalysis.py:189-201 | WorkGroup holds a reference to the index's parameter under REMAP_DS and the described workgroup otherwise; under REMAP_DS its parameter is declared, otherwise Parameters is unchanged |
| DataSourceGen.AthenaStep | source/lambda/qs_assets_CFN_synthesizer/createTemplateFromAnalysis.py:188-208 | an Athena source fails exactly when its workgroup cannot be read; the resource's Type becomes ATHENA and its DataSourceParameters the workgroup; Parameters gains the Athena declaration exactly under REMAP_DS; other engines pass through |
| DataSourceGen.VpcStep | source/lambda/qs_assets_CFN_synthesizer/createTemplateFromAnalysis.py:210-223 | a VPC connection without an ARN fails; with one, VpcConnectionProperties becomes a reference to VpcConnectionArn, which Parameters declares; without a connection nothing changes |
| DataSourceGen.SecretStep | source/lambda/qs_assets_CFN_synthesizer/createTemplateFromAnalysis.py:225-239 | a database engine without a secret is a ValueError; with one, Parameters gains DSSecretArn and the credentials reference it |
| DataSourceGen.RdsSettings | source/lambda/qs_assets_CFN_synthesizer/createTemplateFromAnalysis.py:244-265 | InstanceId holds the RDS setting; under REMAP_DS Database references the index's database parameter and the instance and database parameters are declared, otherwise Database stays unset and Parameters is unchanged |
| DataSourceGen.RdsBranch | source/lambda/qs_assets_CFN_synthesizer/createTemplateFromAnalysis.py:242-272 | fails exactly when the RDS entries cannot be read; the engine key holds exactly the Database and InstanceId entries; Parameters as for the RDS settings; the Properties untouched |
| DataSourceGen.HostSettings | source/lambda/qs_assets_CFN_synthesizer/createTemplateFromAnalysis.py:274-306 | Database, Host and Port are set; under REMAP_DS their three parameters are declared |
| DataSourceGen.HostBranch | source/lambda/qs_assets_CFN_synthesizer/createTemplateFromAnalysis.py:273-313 | fails exactly when the host entries cannot be read; the engine key holds exactly the Database, Host and Port entries; Parameters as for the host settings; the Properties untouched |
| DataSourceGen.ClusterStep | source/lambda/qs_assets_CFN_synthesizer/createTemplateFromAnalysis.py:315-330 | Parameters gains the cluster id parameter exactly for a remapped Redshift source |
| DataSourceGen.RdbmsStep | source/lambda/qs_assets_CFN_synthesizer/createTemplateFromAnalysis.py:240-335 | a database engine fails exactly when its settings cannot be read; the resource's Type becomes the engine and its DataSourceParameters the settings under the last key; Parameters gains the engine's declarations exactly under REMAP_DS; other engines pass through |
| DataSourceGen.ServiceSteps | source/lambda/qs_assets_CFN_synthesizer/createTemplateFromAnalysis.py:152-208 | for S3 and Athena the Properties gain the engine's Type and DataSourceParameters, failing exactly when those settings cannot be read; Parameters gains the service declarations |
| DataSourceGen.SharedSteps | source/lambda/qs_assets_CFN_synthesizer/createTemplateFromAnalysis.py:210-239 | fails exactly for a VPC connection without an ARN or a database engine without a secret; the Properties gain VpcConnectionProperties and Credentials as references, and Parameters the shared declarations |
| DataSourceGen.Settle | source/lambda/qs_assets_CFN_synthesizer/createTemplateFromAnalysis.py:142-335 | all the steps in order add exactly the source's declarations, and fail for an engine without a secret |
| DataSourceGen.DataSourceSpec | source/lambda/qs_assets_CFN_synthesizer/createTemplateFromAnalysis.py:117-340 | an unknown id is NotFound; an existing key leaves the document unchanged; a new key is appended after every existing resource, which keep their values, and Parameters is the old Parameters updated with the source's declarations |
| DataSourceGen.NewResource | source/lambda/qs_assets_CFN_synthesizer/createTemplateFromAnalysis.py:131-143 | the settled state's Parameters are the old ones updated with the source's declarations |
| DataSourceGen.EngineCases | source/lambda/qs_assets_CFN_synthesizer/createTemplateFromAnalysis.py:152-335 | S3, Athena and the database engines are told apart; an engine in neither list gets no DataSourceParameters; a database engine's are its settings under the last key |
| DataSourceGen.FirstStepsOk | source/lambda/qs_assets_CFN_synthesizer/createTemplateFromAnalysis.py:152-239 | the service and shared steps fail exactly when a service engine's settings, the VPC connection's ARN or a needed secret is missing |
| DataSourceGen.SettleOk | source/lambda/qs_assets_CFN_synthesizer/createTemplateFromAnalysis.py:142-335 | the settings fail exactly when one of the generator's checks does |
| DataSourceGen.SettleProperties | source/lambda/qs_assets_CFN_synthesizer/createTemplateFromAnalysis.py:142-335 | the Properties are the given ones updated with the property entries, in the order the generator writes them |
| DataSourceResource.PropertyValues | source/lambda/qs_assets_CFN_synthesizer/createTemplateFromAnalysis.py:142-335 | after those updates each written key holds what was written (Type, DataSourceParameters, VpcConnectionProperties, Credentials) and every other key keeps its value |
| DataSourceResource.NewResourceProperties | source/lambda/qs_assets_CFN_synthesizer/createTemplateFromAnalysis.py:131-143 | the new resource's Properties are the skeleton's, with DataSourceId and Name, updated with the property entries |
| DataSourceResource.NewResourceFields | source/lambda/qs_assets_CFN_synthesizer/createTemplateFromAnalysis.py:142-239 | the new resource reads its id and name, the engine's Type and DataSourceParameters, `{'Ref': 'VpcConnectionArn'}` for a VPC connection and `{'Ref': 'DSSecretArn'}` for a secret |
| DataSourceResource.S3Parameters | source/lambda/qs_assets_CFN_synthesizer/createTemplateFromAnalysis.py:152-186 | an S3 source's manifest location refers to `S3DestinationBucket<index>` and `S3DestinationKey<index>` under REMAP_DS, and copies the described bucket and key otherwise |
| DataSourceResource.AthenaParameters | source/lambda/qs_assets_CFN_synthesizer/createTemplateFromAnalysis.py:188-208 | an Athena source's workgroup refers to `ATHENAWorkgroup<index>` under REMAP_DS, and copies the described one otherwise |
| DataSourceResource.DatabaseParametersPaths | source/lambda/qs_assets_CFN_synthesizer/createTemplateFromAnalysis.py:240-335 | a database engine's settings sit under the last key of the described DataSourceParameters, one entry per setting |
| DataSourceResource.RemappedDatabaseEntries | source/lambda/qs_assets_CFN_synthesizer/createTemplateFromAnalysis.py:244-330 | under REMAP_DS every database setting is a reference to the parameter its table names for the index |
| DataSourceResource.DescribedDatabaseEntries | source/lambda/qs_assets_CFN_synthesizer/createTemplateFromAnalysis.py:244-330 | without REMAP_DS every database setting is copied from the description |
| DataSourceGen.AddResource | source/lambda/qs_assets_CFN_synthesizer/createTemplateFromAnalysis.py:135 | the new key goes last with the resource, every existing resource is kept |
| DataSourceGen.GenerateDataSource | source/lambda/qs_assets_CFN_synthesizer/createTemplateFromAnalysis.py:97-340 | the document becomes the specification's new sections and the helper record is returned; on an error the document is unchanged; outputs untouched |
| DataSourceProps.Names | source/lambda/qs_assets_CFN_synthesizer/createTemplateFromAnalysis.py:157-166 | the declared names, one per declaration, in order |
| DataSourceProps.RemapDeclType | source/lambda/qs_assets_CFN_synthesizer/createTemplateFromAnalysis.py:284-287 | a remap declaration carries the Type it was given |
| DataSourceProps.EngineDeclsMatchTable | source/lambda/qs_assets_CFN_synthesizer/createTemplateFromAnalysis.py:152-330 | each engine's declarations are its table of settings, name for name and Type for Type |
| DataSourceProps.EnginesExclusive | source/lambda/qs_assets_CFN_synthesizer/createTemplateFromAnalysis.py:124-125 | S3 and Athena are in neither database-engine list |
| DataSourceProps.TablePrefixes | source/lambda/qs_assets_CFN_synthesizer/createTemplateFromAnalysis.py:153-154 | no prefix in a table ends in a digit, so an index can follow it unambiguously |
| DataSourceProps.TableDistinct | source/lambda/qs_assets_CFN_synthesizer/createTemplateFromAnalysis.py:276-278 | no prefix repeats within an engine's table |
| DataSourceProps.IndexedPrefixInjective | source/lambda/qs_assets_CFN_synthesizer/createTemplateFromAnalysis.py:244-245 | the same index after two prefixes gives the same name only for the same prefix |
| DataSourceProps.MatchesDistinct | source/lambda/qs_assets_CFN_synthesizer/createTemplateFromAnalysis.py:279-292 | declarations that follow a table without repeated prefixes repeat no name |
| DataSourceProps.DeclarationsShape | source/lambda/qs_assets_CFN_synthesizer/createTemplateFromAnalysis.py:152-335 | the engine's declarations come before the shared ones, except for database engines |
| DataSourceProps.DeclarationsDistinct | source/lambda/qs_assets_CFN_synthesizer/createTemplateFromAnalysis.py:152-335 | no data source declares the same parameter twice |
| DataSourceProps.DeclaredValue | source/lambda/qs_assets_CFN_synthesizer/createTemplateFromAnalysis.py:157-166 | each declaration of a newly added source is what its parameter then holds |
| DataSourceProps.RemapDeclaresEverySetting | source/lambda/qs_assets_CFN_synthesizer/createTemplateFromAnalysis.py:152-330 | under REMAP_DS every engine setting becomes a parameter named by its prefix and the index, with the Type the deploy stage supplies |
| DataSourceProps.SharedParametersDeclared | source/lambda/qs_assets_CFN_synthesizer/createTemplateFromAnalysis.py:210-239 | a source behind a VPC connection, or one needing a secret, declares the shared String parameter, with or without REMAP_DS |
| DataSourceProps.WithoutRemapOnlyShared | source/lambda/qs_assets_CFN_synthesizer/createTemplateFromAnalysis.py:173-175 | without REMAP_DS a source adds at most the two shared parameters |
| DataSourceProps.RemapNamesDisjoint | source/lambda/qs_assets_CFN_synthesizer/createTemplateFromAnalysis.py:999-1009 | sources with different indices never declare the same engine parameter |
| DataSetGen.DependsOnSpec | source/lambda/qs_assets_CFN_synthesizer/createTemplateFromAnalysis.py:397-398 | the DependsOn list is each data source's key in order, and fails exactly when some data source has no record (AttributeError) |
| DataSetGen.DependsOnList | source/lambda/qs_assets_CFN_synthesizer/createTemplateFromAnalysis.py:369-398 | the loop builds exactly that list |
| DataSetGen.DataSourceArnSub | source/lambda/qs_assets_CFN_synthesizer/createTemplateFromAnalysis.py:404-407 | the rewritten ARN is a `Fn::Sub` of the target-account prefix and the id after the last '/', which is a '/'-free suffix of the ARN |
| DataSetGen.SetTableArnShape | source/lambda/qs_assets_CFN_synthesizer/createTemplateFromAnalysis.py:408 | the table's DataSourceArn reads the new value; other tables are unchanged |
| DataSetGen.RewriteTableArn | source/lambda/qs_assets_CFN_synthesizer/createTemplateFromAnalysis.py:402-408 | a table is rewritten to the substituted form of its own data source's ARN, and no other table changes |
| DataSetGen.RewriteTableRejects | source/lambda/qs_assets_CFN_synthesizer/createTemplateFromAnalysis.py:404 | a DataSourceArn that is not a string is an error |
| DataSetGen.DataSourceArnSubPoints | source/lambda/qs_assets_CFN_synthesizer/createTemplateFromAnalysis.py:405-407 | every rewritten ARN points into the target account |
| DataSetGen.RewriteTablesKeep | source/lambda/qs_assets_CFN_synthesizer/createTemplateFromAnalysis.py:400-408 | tables not in the list are untouched |
| DataSetGen.RewriteTablesPoint | source/lambda/qs_assets_CFN_synthesizer/createTemplateFromAnalysis.py:400-408 | every listed table ends up pointing into the target account |
| DataSetGen.RewriteTables | source/lambda/qs_assets_CFN_synthesizer/createTemplateFromAnalysis.py:400-408 | the loop rewrites exactly as the specification does |
| DataSetGen.CopyOptionalShape | source/lambda/qs_assets_CFN_synthesizer/createTemplateFromAnalysis.py:415-417 | an optional property is present exactly when it was before or the description carries it as a truthy value, which then wins |
| DataSetGen.CopyOptional | source/lambda/qs_assets_CFN_synthesizer/createTemplateFromAnalysis.py:367-417 | the loop copies exactly the specification's properties |
| DataSetGen.FilledProperties | source/lambda/qs_assets_CFN_synthesizer/createTemplateFromAnalysis.py:386-395 | DataSetId, Name, PhysicalTableMap, LogicalTableMap and ImportMode hold the id, the described name, the rewritten map, the described logical map and the mode's name |
| DataSetGen.DataSetProperties | source/lambda/qs_assets_CFN_synthesizer/createTemplateFromAnalysis.py:386-417 | the same five entries, none of which is an optional property, and in addition every truthy optional property of the description is copied |
| DataSetGen.DataSetResource | source/lambda/qs_assets_CFN_synthesizer/createTemplateFromAnalysis.py:410-411 | the resource holds the properties and the DependsOn list |
| DataSetGen.PrepareSpec | source/lambda/qs_assets_CFN_synthesizer/createTemplateFromAnalysis.py:373-408 | preparation fails exactly when the skeleton has no Properties dict or a data source has no record; it yields the skeleton's Properties, the DependsOn list and the rewritten tables |
| DataSetGen.Prepare | source/lambda/qs_assets_CFN_synthesizer/createTemplateFromAnalysis.py:373-408 | the method computes the same |
| DataSetGen.DataSetStepIs | source/lambda/qs_assets_CFN_synthesizer/createTemplateFromAnalysis.py:387-417 | the step writes the resource, then the schedules, then the optional properties, failing where any of them fails |
| DataSetGen.DataSetStepShape | source/lambda/qs_assets_CFN_synthesizer/createTemplateFromAnalysis.py:387-417 | the new resource under the data-set key has the filled properties and DependsOn; earlier resources are kept; only schedules are added besides |
| DataSetGen.DataSetStepGrows | source/lambda/qs_assets_CFN_synthesizer/createTemplateFromAnalysis.py:410-417 | the step only adds resources, its own key among them |
| DataSetGen.RlsDataSetId | source/lambda/qs_assets_CFN_synthesizer/createTemplateFromAnalysis.py:441 | the permission data set's id is the ARN's part after the last "dataset/", and fails exactly without a string Arn |
| DataSetGen.RlsLookup | source/lambda/qs_assets_CFN_synthesizer/createTemplateFromAnalysis.py:443-455 | the permission data set is described; the mode is SPICE exactly when it reports SPICE; its last table's data source id has no '/' |
| DataSetGen.RlsInfo | source/lambda/qs_assets_CFN_synthesizer/createTemplateFromAnalysis.py:457-458 | the permission data set's record has its id, its mode and its tables |
| DataSetGen.DataSetStepKeeps | source/lambda/qs_assets_CFN_synthesizer/createTemplateFromAnalysis.py:387-417 | the data-set step keeps every resource that is not a data set or a schedule, and adds none |
| DataSetGen.DataSourceSpecKeeps | source/lambda/qs_assets_CFN_synthesizer/createTemplateFromAnalysis.py:135-140 | the data-source generator keeps every existing resource's value |
| DataSetGen.DataSetSpecKeeps | source/lambda/qs_assets_CFN_synthesizer/createTemplateFromAnalysis.py:343-473 | a data set with its schedules and permission data sets keeps the value of every resource that is not a data set or a schedule |
| DataSetGen.DescribedSpecKeeps | source/lambda/qs_assets_CFN_synthesizer/createTemplateFromAnalysis.py:413-473 | the same from the placed resource onward |
| DataSetGen.RlsSpecKeeps | source/lambda/qs_assets_CFN_synthesizer/createTemplateFromAnalysis.py:426-473 | the same for row-level security |
| DataSetGen.RlsWithSourceKeeps | source/lambda/qs_assets_CFN_synthesizer/createTemplateFromAnalysis.py:456-473 | the same once the permission data set is described |
| DataSetGen.RlsRestKeeps | source/lambda/qs_assets_CFN_synthesizer/createTemplateFromAnalysis.py:457-473 | the same once its data source is generated |
| DataSetGen.NextOrdinal | source/lambda/qs_assets_CFN_synthesizer/createTemplateFromAnalysis.py:993-1009 | the data-source count moves past a newly added data source and stays otherwise, as `ds_count` does |
| DataSetGen.RlsSetting | source/lambda/qs_assets_CFN_synthesizer/createTemplateFromAnalysis.py:461-469 | the setting's Arn is the substituted data-set ARN, and the other four entries are copied |
| DataSetGen.RlsSettingOf | source/lambda/qs_assets_CFN_synthesizer/createTemplateFromAnalysis.py:465-468 | the setting can be built exactly when the definition holds all four entries |
| DataSetGen.ResourceAt | source/lambda/qs_assets_CFN_synthesizer/createTemplateFromAnalysis.py:461 | a resource is found exactly under a present key |
| DataSetGen.AsList | source/lambda/qs_assets_CFN_synthesizer/createTemplateFromAnalysis.py:471 | `.append` works exactly on a list |
| DataSetGen.AttachRls | source/lambda/qs_assets_CFN_synthesizer/createTemplateFromAnalysis.py:461-471 | only the target changes: it gains the RowLevelPermissionDataSet setting, and the permission data set's key is appended to its DependsOn |
| DataSetGen.DataSourceSpecGrows | source/lambda/qs_assets_CFN_synthesizer/createTemplateFromAnalysis.py:135-140 | the data-source generator only adds, and its key is present afterwards |
| DataSetGen.DataSetSpec | source/lambda/qs_assets_CFN_synthesizer/createTemplateFromAnalysis.py:343-424 | exhausted recursion is an error; an unknown data set is NotFound |
| DataSetGen.DataSetSpecGrows | source/lambda/qs_assets_CFN_synthesizer/createTemplateFromAnalysis.py:343-473 | a data set with its schedules and permission data sets only adds to the document, its key is present, and the ordinal never goes down; as written it is returned unchanged |
| DataSetGen.DescribedSpecGrows | source/lambda/qs_assets_CFN_synthesizer/createTemplateFromAnalysis.py:413-421 | the same from the placed resource onward |
| DataSetGen.RlsSpecGrows | source/lambda/qs_assets_CFN_synthesizer/createTemplateFromAnalysis.py:426-473 | row-level security only adds; the permission data set, its data source and the target are present afterwards; as written the ordinal is handed back unchanged, under the corrected rule it moves past a newly added data source |
| DataSetGen.RlsDescribedGrows | source/lambda/qs_assets_CFN_synthesizer/createTemplateFromAnalysis.py:443-473 | the same once the permission data set is identified |
| DataSetGen.RlsWithSourceGrows | source/lambda/qs_assets_CFN_synthesizer/createTemplateFromAnalysis.py:456-473 | the same once it is described: the permission data source is generated with the ordinal given |
| DataSetGen.RlsRestGrows | source/lambda/qs_assets_CFN_synthesizer/createTemplateFromAnalysis.py:457-473 | the same once its data source is generated |
| DataSetGen.TableKeys | source/lambda/qs_assets_CFN_synthesizer/createTemplateFromAnalysis.py:854-877 | the table keys are the map's keys in order; a non-dict is a TypeError |
| DataSetGen.PhysicalTableKeys | source/lambda/qs_assets_CFN_synthesizer/createTemplateFromAnalysis.py:872-877 | the loop collects exactly those keys |
| DataSetGen.GenerateDataSet | source/lambda/qs_assets_CFN_synthesizer/createTemplateFromAnalysis.py:343-424 | it fails exactly when the specification does, with its error; on success the document becomes the specification's sections and the new ordinal is returned; outputs untouched |
| DataSetGen.GenerateDescribed | source/lambda/qs_assets_CFN_synthesizer/createTemplateFromAnalysis.py:413-424 | the same for the part after the resource is placed |
| DataSetGen.PlaceDataSet | source/lambda/qs_assets_CFN_synthesizer/createTemplateFromAnalysis.py:387-417 | it fails exactly when the data-set step does, with its error; on success Resources becomes the step's result; Parameters untouched |
| DataSetGen.GenerateRls | source/lambda/qs_assets_CFN_synthesizer/createTemplateFromAnalysis.py:426-473 | the document becomes the row-level-security specification's sections and the ordinal its ordinal, under the ordinal rule given (as written: the one passed in) |
| DataSetGen.GenerateRlsDescribed | source/lambda/qs_assets_CFN_synthesizer/createTemplateFromAnalysis.py:443-473 | the same from the identified permission data set |
| DataSetGen.GenerateRlsWithSource | source/lambda/qs_assets_CFN_synthesizer/createTemplateFromAnalysis.py:456-473 | the same from the described permission data set |
| DataSetGen.GenerateRlsRest | source/lambda/qs_assets_CFN_synthesizer/createTemplateFromAnalysis.py:457-473 | the same after its data source is generated |
| DataSetGen.AttachTarget | source/lambda/qs_assets_CFN_synthesizer/createTemplateFromAnalysis.py:461-471 | Resources becomes the attached result, or is unchanged on error |
| DataSetGen.NewRlsDataSet | source/lambda/qs_assets_CFN_synthesizer/createTemplateFromAnalysis.py:458-459 | a fresh record for the permission data set, depending on its one data source |
| ScheduleGen.ScheduleCfnId | source/lambda/qs_assets_CFN_synthesizer/createTemplateFromAnalysis.py:575 | a schedule key starts with "RSchedule" and holds no hyphen |
| ScheduleGen.DataSetKeyIsNoScheduleKey | source/lambda/qs_assets_CFN_synthesizer/createTemplateFromAnalysis.py:575-577 | a data-set key never looks like a schedule key |
| ScheduleGen.StartAfter | source/lambda/qs_assets_CFN_synthesizer/createTemplateFromAnalysis.py:566-572 | the start keeps the time of day; monthly is the next month (failing only in December 9999), anything else exactly seven days later (failing only past year 9999) |
| ScheduleGen.Pop | source/lambda/qs_assets_CFN_synthesizer/createTemplateFromAnalysis.py:565 | `pop(k)` succeeds exactly on a dict holding k, returns its entry, removes it and keeps the rest; a dict without k is a KeyError, a list a TypeError, any other value an AttributeError |
| ScheduleGen.RenameTimezone | source/lambda/qs_assets_CFN_synthesizer/createTemplateFromAnalysis.py:565 | Timezone moves to TimeZone, and fails exactly when Timezone is missing; nothing else changes |
| ScheduleGen.NewSchedule | source/lambda/qs_assets_CFN_synthesizer/createTemplateFromAnalysis.py:563-574 | the schedule holds the renamed frequency and the start date for its interval |
| ScheduleGen.ScheduleEntry | source/lambda/qs_assets_CFN_synthesizer/createTemplateFromAnalysis.py:556-577 | each listed schedule is described and keyed by its sanitised id, and depends on its data set |
| ScheduleGen.ScheduleResource | source/lambda/qs_assets_CFN_synthesizer/createTemplateFromAnalysis.py:559-577 | the resource carries the schedule and depends on the data-set key |
| ScheduleGen.ScheduleEntryRenames | source/lambda/qs_assets_CFN_synthesizer/createTemplateFromAnalysis.py:563-565 | the written schedule is the described one with its frequency renamed |
| ScheduleGen.SchedulesFromSpec | source/lambda/qs_assets_CFN_synthesizer/createTemplateFromAnalysis.py:556-577 | every listed schedule is written, and every other resource is kept or is a schedule |
| ScheduleGen.ScheduleEntrySchedule | source/lambda/qs_assets_CFN_synthesizer/createTemplateFromAnalysis.py:563-574 | the schedule each entry writes is the new schedule: the renamed frequency and the later start date |
| ScheduleGen.EntryKey | source/lambda/qs_assets_CFN_synthesizer/createTemplateFromAnalysis.py:575 | the key a schedule entry is written under has the schedule prefix |
| ScheduleGen.ScheduleEntriesAt | source/lambda/qs_assets_CFN_synthesizer/createTemplateFromAnalysis.py:556-577 | the i-th entry of the list is the i-th schedule's entry |
| ScheduleGen.SchedulesFromPutAll | source/lambda/qs_assets_CFN_synthesizer/createTemplateFromAnalysis.py:556-577 | writing the schedules is updating Resources with their entries in order |
| ScheduleGen.SchedulesFromValue | source/lambda/qs_assets_CFN_synthesizer/createTemplateFromAnalysis.py:556-577 | a schedule no later schedule overwrites is found under its key holding the new resource |
| ScheduleGen.SchedulesFromValues | source/lambda/qs_assets_CFN_synthesizer/createTemplateFromAnalysis.py:556-577 | the same for every such schedule |
| ScheduleGen.RefreshSchedulesValues | source/lambda/qs_assets_CFN_synthesizer/createTemplateFromAnalysis.py:549-580 | for a SPICE data set every listed schedule not overwritten later ends up in Resources holding its new resource |
| ScheduleGen.RefreshSchedulesSpec | source/lambda/qs_assets_CFN_synthesizer/createTemplateFromAnalysis.py:549-580 | a non-SPICE data set leaves Resources unchanged; a SPICE data set without a schedule list is an error |
| ScheduleGen.RefreshSchedulesKeep | source/lambda/qs_assets_CFN_synthesizer/createTemplateFromAnalysis.py:549-580 | schedules only add or overwrite schedule resources |
| ScheduleGen.GenerateRefreshSchedules | source/lambda/qs_assets_CFN_synthesizer/createTemplateFromAnalysis.py:528-580 | on success Resources becomes the specification's result, on error the error is the specification's; Parameters and outputs untouched either way |
| TemplateGen.TemplateIdOf | source/lambda/qs_assets_CFN_synthesizer/createTemplateFromAnalysis.py:68-69 | the template id is the analysis name with spaces replaced by '-', then "-template"; it holds no space |
| TemplateGen.DataSetReference | source/lambda/qs_assets_CFN_synthesizer/createTemplateFromAnalysis.py:85-91 | a reference holds the substituted data-set ARN and the placeholder, in that order |
| TemplateGen.PlaceholdersOf | source/lambda/qs_assets_CFN_synthesizer/createTemplateFromAnalysis.py:90 | each data set's placeholder name, in order |
| TemplateGen.DataSetReferences | source/lambda/qs_assets_CFN_synthesizer/createTemplateFromAnalysis.py:82-93 | the loop yields one reference per data set, in dictionary order |
| TemplateGen.TemplateHeaderOk | source/lambda/qs_assets_CFN_synthesizer/createTemplateFromAnalysis.py:67-77 | the header can be written exactly when the skeleton has the source-analysis ARN to fill |
| TemplateGen.TemplateHeaderWrites | source/lambda/qs_assets_CFN_synthesizer/createTemplateFromAnalysis.py:75-77 | the header writes the analysis ARN, the template id and the name |
| TemplateGen.TemplatePropertiesShape | source/lambda/qs_assets_CFN_synthesizer/createTemplateFromAnalysis.py:67-93 | the properties gain the data-set references as well |
| TemplateGen.TemplateSpecOk | source/lambda/qs_assets_CFN_synthesizer/createTemplateFromAnalysis.py:64-95 | the template can be written exactly when the skeleton's template resource has the properties it fills |
| TemplateGen.TemplateSpecWrites | source/lambda/qs_assets_CFN_synthesizer/createTemplateFromAnalysis.py:67-93 | the template resource's properties are the filled ones |
| TemplateGen.GenerateTemplate | source/lambda/qs_assets_CFN_synthesizer/createTemplateFromAnalysis.py:45-95 | the template document and id are the specification's |
| TemplateGen.JStrs | source/lambda/qs_assets_CFN_synthesizer/createTemplateFromAnalysis.py:522 | the DependsOn strings, position by position |
| TemplateGen.AnalysisHeaderOk | source/lambda/qs_assets_CFN_synthesizer/createTemplateFromAnalysis.py:500-508 | the analysis header can be written exactly when the skeleton has the source-template entry |
| TemplateGen.AnalysisHeaderWrites | source/lambda/qs_assets_CFN_synthesizer/createTemplateFromAnalysis.py:501-508 | the header writes the id, the name and the substituted template ARN |
| TemplateGen.AnalysisSpecShape | source/lambda/qs_assets_CFN_synthesizer/createTemplateFromAnalysis.py:497-522 | the analysis resource holds the header, the references and the data-set DependsOn |
| TemplateGen.AnalysisResource | source/lambda/qs_assets_CFN_synthesizer/createTemplateFromAnalysis.py:497-522 | the loop builds exactly the specification's resource |
| TemplateGen.GenerateAnalysis | source/lambda/qs_assets_CFN_synthesizer/createTemplateFromAnalysis.py:475-526 | the resource is placed under the analysis key, or the document is unchanged on error |
| Artifacts.OutputEntry | source/lambda/qs_assets_CFN_synthesizer/createTemplateFromAnalysis.py:900-910 | an output holds its Description and Value |
| Artifacts.AnalysisUrlNamesAnalysis | source/lambda/qs_assets_CFN_synthesizer/createTemplateFromAnalysis.py:905-910 | the analysis URL ends with the analysis id after its last '/', and is the AnalysisURL output's value |
| Artifacts.TemplateIdOutputsValue | source/lambda/qs_assets_CFN_synthesizer/createTemplateFromAnalysis.py:900-904 | the source outputs hold only TemplateId, with the template id as value |
| Artifacts.GenerateTemplateOutputs | source/lambda/qs_assets_CFN_synthesizer/createTemplateFromAnalysis.py:879-912 | the destination gets the analysis URL output, the source the template id output, and neither's sections change |
| Artifacts.ParameterEntry | source/lambda/qs_assets_CFN_synthesizer/createTemplateFromAnalysis.py:843-850 | an entry names the parameter, with "1234" for Number and "<fill_me>" otherwise |
| Artifacts.FillInOk | source/lambda/qs_assets_CFN_synthesizer/createTemplateFromAnalysis.py:842-850 | the list can be built exactly when every parameter has a Type |
| Artifacts.FillInEntries | source/lambda/qs_assets_CFN_synthesizer/createTemplateFromAnalysis.py:842-850 | one entry per parameter, in declaration order, each the entry for its Type |
| Artifacts.FillInFails | source/lambda/qs_assets_CFN_synthesizer/createTemplateFromAnalysis.py:844 | a failure comes from the first parameter without a Type |
| Artifacts.FillInPrefixFails | source/lambda/qs_assets_CFN_synthesizer/createTemplateFromAnalysis.py:842-850 | once a prefix fails, the whole list fails the same way |
| Artifacts.TemplateParameterList | source/lambda/qs_assets_CFN_synthesizer/createTemplateFromAnalysis.py:819-852 | the loop builds exactly that list |
| Artifacts.ObjectKeyJoins | source/lambda/qs_assets_CFN_synthesizer/createTemplateFromAnalysis.py:653-660 | the key is the prefix, one '/', and the object name (the file's base name when none is given) |
| Artifacts.ObjectKeyTrailingSlash | source/lambda/qs_assets_CFN_synthesizer/createTemplateFromAnalysis.py:656-660 | a prefix with or without its trailing '/' gives the same key |
| Artifacts.ObjectKeyKeepsBaseName | source/lambda/qs_assets_CFN_synthesizer/createTemplateFromAnalysis.py:653-654 | without an object name the key ends in the file's base name |
| Handler.TableDataSourceId | source/lambda/qs_assets_CFN_synthesizer/createTemplateFromAnalysis.py:984-986 | a table's data source id can be read exactly when its DataSourceArn is a string |
| Handler.TableDataSourceIdShape | source/lambda/qs_assets_CFN_synthesizer/createTemplateFromAnalysis.py:986 | the id is a suffix of the ARN free of "datasource/", either the whole ARN or right after that segment |
| Handler.DataSourceIdsSpec | source/lambda/qs_assets_CFN_synthesizer/createTemplateFromAnalysis.py:983-987 | the ids can be collected exactly when every table's can |
| Handler.DataSourceIdsValues | source/lambda/qs_assets_CFN_synthesizer/createTemplateFromAnalysis.py:983-987 | one id per table, in table order |
| Handler.IdsPrefixFails | source/lambda/qs_assets_CFN_synthesizer/createTemplateFromAnalysis.py:983-987 | the first failing table decides the failure |
| Handler.CollectDataSourceIds | source/lambda/qs_assets_CFN_synthesizer/createTemplateFromAnalysis.py:983-987 | the loop collects exactly those ids |
| Handler.Dedupe | source/lambda/qs_assets_CFN_synthesizer/createTemplateFromAnalysis.py:990 | `list(set(ids))` holds each id once and exactly the ids given |
| Handler.DiscoverSpec | source/lambda/qs_assets_CFN_synthesizer/createTemplateFromAnalysis.py:993-1009 | one record per id, and the count never goes down |
| Handler.DiscoverNumbering | source/lambda/qs_assets_CFN_synthesizer/createTemplateFromAnalysis.py:995-1009 | the count grows by exactly the number of newly added data sources, which are numbered consecutively from the starting count |
| Handler.DiscoverGrows | source/lambda/qs_assets_CFN_synthesizer/createTemplateFromAnalysis.py:993-1009 | discovery only adds resources and parameters |
| Handler.DiscoverPlaces | source/lambda/qs_assets_CFN_synthesizer/createTemplateFromAnalysis.py:993-1009 | every discovered data source's key is present afterwards |
| Handler.DiscoverOneMore | source/lambda/qs_assets_CFN_synthesizer/createTemplateFromAnalysis.py:994-1009 | one more id extends discovery by its data source, advancing the count exactly when that data source is new |
| Handler.DiscoveredParametersApart | source/lambda/qs_assets_CFN_synthesizer/createTemplateFromAnalysis.py:999-1009 | two data sources added in one discovery never declare the same engine parameter |
| Handler.DiscoverPrefixFails | source/lambda/qs_assets_CFN_synthesizer/createTemplateFromAnalysis.py:993-1006 | the first failing data source decides the failure |
| Handler.DiscoverDataSources | source/lambda/qs_assets_CFN_synthesizer/createTemplateFromAnalysis.py:993-1009 | the loop leaves the specification's sections and returns its count and records |
| Handler.DiscoverNext | source/lambda/qs_assets_CFN_synthesizer/createTemplateFromAnalysis.py:994-1009 | one iteration extends the specification by one id |
| Handler.Caught | source/lambda/qs_assets_CFN_synthesizer/createTemplateFromAnalysis.py:1001-1006 | a ValueError becomes the status-500 response; any other error escapes unchanged |
| Handler.DiscoverForDataSet | source/lambda/qs_assets_CFN_synthesizer/createTemplateFromAnalysis.py:983-1011 | collects the ids, deduplicates them and discovers them, recording the data sources on the data set, or answers 500 on a ValueError |
| Handler.ItemsOf | source/lambda/qs_assets_CFN_synthesizer/createTemplateFromAnalysis.py:1025-1026 | one item per dictionary entry, in dictionary order |
| Handler.DataSetsSpec | source/lambda/qs_assets_CFN_synthesizer/createTemplateFromAnalysis.py:1024-1027 | exhausted recursion is an error |
| Handler.DataSetsSpecGrows | source/lambda/qs_assets_CFN_synthesizer/createTemplateFromAnalysis.py:1024-1027 | generating the data sets only adds, and the ordinal never goes down; as written it is returned unchanged |
| Handler.DataSetsSpecPlaces | source/lambda/qs_assets_CFN_synthesizer/createTemplateFromAnalysis.py:1025-1027 | every data set of the analysis ends up with its resource |
| Handler.DataSetsPrefixFails | source/lambda/qs_assets_CFN_synthesizer/createTemplateFromAnalysis.py:1025-1027 | the first failing data set decides the failure |
| Handler.GenerateDataSets | source/lambda/qs_assets_CFN_synthesizer/createTemplateFromAnalysis.py:1024-1027 | it fails exactly when the specification does, with its error; on success the loop leaves the specification's sections and returns its ordinal |
| Handler.GenerateNextDataSet | source/lambda/qs_assets_CFN_synthesizer/createTemplateFromAnalysis.py:1026-1027 | one iteration extends the specification by one data set |
| RlsOrdinal.NewS3Refs | source/lambda/qs_assets_CFN_synthesizer/createTemplateFromAnalysis.py:152-186 | a remapped S3 resource reads its bucket and key from `S3DestinationBucket<index>` and `S3DestinationKey<index>` |
| RlsOrdinal.NewS3Source | source/lambda/qs_assets_CFN_synthesizer/createTemplateFromAnalysis.py:117-186 | a newly added remapped S3 data source reads those two parameters, and Parameters declares both |
| RlsOrdinal.ReadsS3ParametersKept | source/lambda/qs_assets_CFN_synthesizer/createTemplateFromAnalysis.py:343-473 | once written, such a data source keeps reading them through later data-set generation |
| RlsOrdinal.RlsWithSourceReads | source/lambda/qs_assets_CFN_synthesizer/createTemplateFromAnalysis.py:456-473 | the permission data source of an S3 permission data set reads the parameters of the ordinal it is generated with |
| RlsOrdinal.RlsSpecReads | source/lambda/qs_assets_CFN_synthesizer/createTemplateFromAnalysis.py:426-473 | the same through the whole row-level-security step, reading the parameters of the ordinal passed in; as written that ordinal comes back, corrected a larger one |
| RlsOrdinal.DataSetSpecReads | source/lambda/qs_assets_CFN_synthesizer/createTemplateFromAnalysis.py:343-473 | the same through generating the data set: its permission data source reads the parameters of the ordinal the data set was handed, which as written the data set hands back |
| RlsOrdinal.DescribedReads | source/lambda/qs_assets_CFN_synthesizer/createTemplateFromAnalysis.py:413-473 | the same from the placed resource onward |
| RlsOrdinal.NextDataSetReads | source/lambda/qs_assets_CFN_synthesizer/createTemplateFromAnalysis.py:343-473 | a further data set keeps what an earlier data source reads, and its own permission data source reads its ordinal's parameters |
| RlsOrdinal.LoopLast | source/lambda/qs_assets_CFN_synthesizer/createTemplateFromAnalysis.py:1024-1027 | the loop's last round generates the last data set after all the others |
| RlsOrdinal.LastTwoRead | source/lambda/qs_assets_CFN_synthesizer/createTemplateFromAnalysis.py:1024-1027 | after the loop, the permission data sources of the last two data sets read the parameters of the ordinals each was generated with; as written both are the starting ordinal, corrected the second is larger |
| RlsOrdinal.RlsOrdinalCollides | source/lambda/qs_assets_CFN_synthesizer/createTemplateFromAnalysis.py:456-473 | as written, two different new S3 permission data sources in one loop both read `S3DestinationBucket<n>` and `S3DestinationKey<n>` of the same n, which Parameters declares once |
| RlsOrdinal.RlsOrdinalSeparates | source/lambda/qs_assets_CFN_synthesizer/createTemplateFromAnalysis.py:1024-1027 | with the corrected ordinal they read parameters of different indices, so their names differ |

## Left out

- Calls to QuickSight, S3 and the file system are not modelled. The describe/list responses, the YAML skeleton files, `datetime.now()` and `AWS_REGION` are parameters; zipping, uploading and `writeToFile` are left out. `print` output is not modelled.
- The rest of `lambda_handler` is not modelled:
  - the dashboard and analysis lookups and the permission parsing;
  - the outer loop over the analysis's data-set ARNs (the `describe_data_set` call, the `QSDataSetDef` it builds, the dictionary entry);
  - the INITIALIZE and DEPLOY modes: writing and uploading the per-stage parameter files, `summarize_template`, `get_s3_objects`, the zips and the role assumption. The parameter list those files hold is modelled by `Artifacts.TemplateParameterList`.

  The model covers one data set's table loop, its discovery loop (`Handler.DiscoverForDataSet` takes `ds_count` and returns it) and the final data-set loop. It does not thread `ds_count` across the outer loop.
- `list(set(...))` has no fixed order in Python. `Handler.Dedupe` keeps the first occurrence of each id, which is one possible order.
- `Handler.DataSetsSpec`, `DataSetGen.DataSetSpec`: the recursion between the data-set and row-level-security generators is bounded by a `fuel` argument. Running out of it is `RecursionLimit`, standing in for Python's recursion limit, and nothing is said about which depth the interpreter reaches.
- When a generator raises, Python has already changed parts of `appendContent`. `DataSourceGen.GenerateDataSource`, `DataSetGen.AttachTarget`, `TemplateGen.GenerateAnalysis` and `Handler.DiscoverForDataSet` (when an id cannot be read) leave the document unchanged on error, as their contracts state, where Python may already have written part of it (for instance the data-source skeleton under its key). `ScheduleGen.GenerateRefreshSchedules`, `DataSetGen.PlaceDataSet`, `DataSetGen.GenerateDataSet`, `DataSetGen.GenerateDescribed`, the `DataSetGen.GenerateRls*` methods and `Handler.GenerateDataSets` leave it partly written, as Python does (the schedules written before a failing one stay), and their contracts state only which error is returned, not what the partly written document holds.
- The `appendContent is None` checks are left out: the document is never None here.
- The `.replace('{dataset_id}', ...)` and `.replace('${datasource}', ...)` calls on the fixed ARN templates are written as the template's prefix followed by the id. These are the same string, since the placeholder occurs once at the end.
- The optional properties are copied after the schedules are written, as in the source; both write to different resources.
- `DataSetGen.TableKeys`: iterating a non-dict is modelled as a TypeError; Python would iterate a list's elements or a string's characters instead.
- `TemplateGen.DataSetReferences` reads the placeholder names before the loop rather than inside it. The result is the same.
- JSON values have no floating-point case: the describe responses the core reads carry strings, integers, booleans, lists and dicts only.
- The POSTGRESQL and RDS source types appear in neither engine list of the data-source generator. Their resource gets only the id, the name and the VPC settings, and no helper record is made, so generating a data set that depends on one fails with an AttributeError. This is modelled as written.
- The non-remapped RDS branch copies only the instance id, so the template's Database is the class default (an empty string). This is modelled as written.
- RlsOrdinal.RlsOrdinalCollides, RlsOrdinal.RlsOrdinalSeparates and the lemmas under them are stated for permission data sources whose key `DS<id>` does not also read as a data-set key (`DSet…`) or a schedule key (`RSchedule…`). A data source id starting with `et` gives such a key, and then the data-set generator may overwrite that resource; the lemmas say nothing about it.
- ScheduleGen.SchedulesFromSpec states which keys the schedules occupy. What each key holds is stated in `ScheduleGen.SchedulesFromValue`, `ScheduleGen.SchedulesFromValues` and `ScheduleGen.RefreshSchedulesValues`, for each schedule no later schedule of the list overwrites.
- The constructor calls in `generateDataSourceCFN` are modelled in their corrected form (see Findings). The `vpcConnectionArn` argument is dropped, so the unbound `vpcConnectionArn` local of a database engine without a VPC connection plays no part.

## Findings

| source | as written | input that shows it | evidently intended | confidence | as-written member | corrected member |
|---|---|---|---|---|---|---|
| source/lambda/qs_assets_CFN_synthesizer/createTemplateFromAnalysis.py:456-473 | the permission data set's data source is generated, always remapped, with index `datasourceOrd`, and the ordinal is returned unchanged | once the constructor calls at :177 are corrected (see the next row; as written the first S3 data source already raises there), an analysis with two data sets under row-level security whose permission data sets read two different S3 data sources not yet in the template: both declare `S3DestinationBucket<n>` and `S3DestinationKey<n>` with the same n | the ordinal moves past each newly added data source, as `ds_count` does in the handler, so every remapped parameter name is unique | high (not executed) | RlsOrdinal.RlsOrdinalCollides | RlsOrdinal.RlsOrdinalSeparates |
| source/lambda/qs_assets_CFN_synthesizer/createTemplateFromAnalysis.py:177 | the three helper constructors are called with `id=` (and `vpcConnectionArn=`), which their signatures do not accept; `arn`, `type` and `dSourceParamKey` are not passed | any S3 or Athena data source, and any database-engine data source with a VPC connection: the call raises TypeError (unexpected keyword `id`) before the constructor runs; a database-engine data source without a VPC connection raises UnboundLocalError earlier, while `vpcConnectionArn=vpcConnectionArn` is evaluated at :266 or :333, since `vpcConnectionArn` is bound only at :211 | pass the id as `arn`, the engine as `type` and the settings key as `dSourceParamKey` | high (not executed) | DataSources.ConstructorCallsAsWrittenFail | DataSources.CorrectedConstructorCallsBind |
