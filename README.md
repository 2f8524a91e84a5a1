# etl-go in Dafny

A model of the core of etl-go, an embeddable ETL (extract-transform-load) engine, together with the proofs of what that core promises. A pipeline run wires these together:

- a source (CSV or JSON file);
- zero or more processors (rename, select, filter, mask, convert);
- a sink (SQL table, CSV file, JSON file, Doris stream load);
- optionally, a before executor and an after executor.

The engine opens the components in a fixed order, threading the column mapping through every processor's `HandleColumns`. It streams records from the source through the processors into a batching sink, then closes everything in reverse order. A type registry binds component names to constructors and their declared parameters.

Around the engine sits an admin server:

- a task runner substitutes `${variable}` placeholders, keeps run records and honours manual cancellation;
- endpoints for tasks, datasources and variables;
- the request middleware and the route table;
- the encryption serializer for stored configuration;
- the output-file bookkeeping.

Every Go file modelled is one module:

- Where the Go code updates state step by step, the module is a `class` with `modifies` clauses on its methods, proved against specification functions.
- Where the Go code only computes, the module is functions and lemmas.
- Shared modules:
  - `Wrappers` holds `Option` and `Result`.
  - `Text` holds Go's `strings` functions.
  - `Values` holds the dynamically typed record values and their `%v` text.

Outside collaborators become parameters:

- database, HTTP and file calls, with their outcomes given as booleans or `Result`s;
- the JSON and CSV codecs, the hashes, AES-CBC, base64 and the cron parser;
- the clock, uuid and the translation layer.

Go's unspecified map iteration order is an `order` parameter that must enumerate the map's keys.

The engine's goroutines and channels are modelled as one schedule:

- One record travels from the source through the processors to the sink before the next Read.
- Cancellation is observed at the loop-head checks.
- The closing of channels by an exiting upstream worker leads to the sink's final flush.

## Model

| member | source | states |
|---|---|---|
| RenameColumn.ParseConfig | components/processors/renameColumn/main.go:39-55 | the mapping is accepted exactly when the key is present, decodes, and is non-empty; a missing key gives the missing-key error |
| RenameColumn.Processor.Open | components/processors/renameColumn/main.go:39-59 | a good config stores the decoded mapping; a bad one reports the parse error and keeps the old mapping |
| RenameColumn.Processor.Process | components/processors/renameColumn/main.go:71-86 | never fails; the output's keys are the renamed input keys, every output cell comes from an input cell renamed to it, and an unambiguous column keeps its value |
| RenameColumn.Processor.HandleColumns | components/processors/renameColumn/main.go:93-100 | unmapped columns stay and every column left is an old one or a mapping target; when no column is renamed to a name the mapping renames again, every inserted name is outside the mapping (so a range that also visits it changes nothing) and the result is the expected renamed mapping |
| RenameColumn.RenameOne | components/processors/renameColumn/main.go:95-98 | one visited key: a mapped key is replaced by its new name, an unmapped one stays, and the loop invariant (unvisited keys present, unmapped keys kept, only old or target names, and without chains inserted names outside the mapping and the reference result) extends to the visited set with that key |
| RenameColumn.HandleStep | components/processors/renameColumn/main.go:93-100 | one step of the column loop keeps the loop's invariant |
| RenameColumn.RenamedSize | components/processors/renameColumn/main.go:71-86 | renaming never adds columns, and keeps their number exactly when the mapping is injective on the record's keys |
| RenameColumn.ExpectedColumns | components/processors/renameColumn/main.go:93-100 | when no column is renamed to a name the mapping renames again: a renamed source column disappears, its target appears with its description, and untouched columns remain |
| RenameColumn.IdentityEntry | components/processors/renameColumn/main.go:71-100 | when no column is renamed to a name the mapping renames again, a mapping entry k to k keeps the column in records but drops it from the column list |
| SelectColumns.ParseConfig | components/processors/selectColumns/main.go:37-52 | the column list is accepted exactly when the key is present, decodes, and is non-empty |
| SelectColumns.Selected | components/processors/selectColumns/main.go:81-94 | keeps exactly the listed columns that exist, with their descriptions |
| SelectColumns.Processor.Open | components/processors/selectColumns/main.go:37-56 | a good config stores the column list; a bad one reports the parse error and keeps the old list |
| SelectColumns.Processor.Process | components/processors/selectColumns/main.go:62-74 | never fails; the output holds exactly the listed columns the record has, with their values |
| SelectColumns.Processor.HandleColumns | components/processors/selectColumns/main.go:81-94 | the column mapping becomes the selected columns |
| SelectColumns.SelectedIdempotent | components/processors/selectColumns/main.go:81-94 | selecting twice is selecting once, and only listed columns survive |
| FilterRows.ToFloat | components/processors/filterRows/main.go:148-165 | floats as they are, integers exactly, json.Number and strings through ParseFloat; null and bool have no number |
| FilterRows.Compare | components/processors/filterRows/main.go:107-144 | when both sides read as numbers, each of the eight operators answers its own comparison of the two numbers and any other is the unsupported-numeric-operator error; otherwise = and == answer equality of the %v texts, != and <> its negation, and any other operator is the unsupported-string-operator error |
| FilterRows.Processor.Open | components/processors/filterRows/main.go:52-72 | column, then operator, must be present and non-empty, and value present; the first failure names its key |
| FilterRows.Processor.Process | components/processors/filterRows/main.go:77-95 | a record without the column is dropped; a record is kept unchanged exactly when the comparison holds; a comparison error is wrapped with the column name |
| FilterRows.Processor.HandleColumns | components/processors/filterRows/main.go:172-174 | the column mapping is unchanged |
| FilterRows.EqualityComplement | components/processors/filterRows/main.go:112-139 | = and != always succeed and disagree; == and <> are their aliases |
| FilterRows.OrderingComplement | components/processors/filterRows/main.go:118-125 | on numbers > keeps a record exactly when <= drops it, and < exactly when >= drops it |
| FilterRows.OrderingNeedsNumbers | components/processors/filterRows/main.go:131-143 | an ordering operator fails whenever either side is not numeric |
| MaskData.MaskText | components/processors/maskData/main.go:87-101 | md5 gives the hex encoding of the md5 digest of the text (32 digits) and sha256 that of its sha256 digest (64 digits); any other method is the unsupported-method error |
| MaskData.Masked | components/processors/maskData/main.go:74-107 | an absent or nil cell leaves the record as is; otherwise only the column changes, to the hash of its %v text |
| MaskData.Processor.Open | components/processors/maskData/main.go:50-64 | column, then method, must be present and non-empty; the first failure names its key |
| MaskData.Processor.Process | components/processors/maskData/main.go:74-107 | the caller's record becomes the masked record, or stays untouched on error |
| MaskData.Processor.HandleColumns | components/processors/maskData/main.go:114-116 | the column mapping is unchanged |
| MaskData.MaskSeparates | components/processors/maskData/main.go:87-98 | two texts get the same mask only when the chosen hash gives them the same digest |
| ConvertType.ParseBool | components/processors/convertType/main.go:88-90 | accepts exactly the six true spellings and the six false spellings of strconv.ParseBool |
| ConvertType.ConvertText | components/processors/convertType/main.go:79-93 | "string" always succeeds with the text; the integer, float and bool targets succeed exactly when their parser accepts the text |
| ConvertType.Converted | components/processors/convertType/main.go:63-104 | an absent or nil cell leaves the record as is; an unknown target type or a failed parse is an error; otherwise only the column changes |
| ConvertType.Processor.Open | components/processors/convertType/main.go:40-54 | column, then type, must be present and non-empty; the first failure names its key |
| ConvertType.Processor.Process | components/processors/convertType/main.go:63-104 | the caller's record becomes the converted record, or stays untouched on error |
| ConvertType.ParseAs | components/processors/convertType/main.go:81-93 | the switch on a supported target type yields exactly the parsed cell, or the name of the strconv parser that rejected the text, as the conversion function states |
| ConvertType.Processor.HandleColumns | components/processors/convertType/main.go:110-112 | the column mapping is unchanged |
| ConvertType.IntStaysInt | components/processors/convertType/main.go:79-83 | converting an int64 cell to int gives it back unchanged |
| ConvertType.BoolStaysBool | components/processors/convertType/main.go:79-90 | converting a bool cell to bool gives it back unchanged |
| ConvertType.StringAlwaysSucceeds | components/processors/convertType/main.go:86-87 | converting to string always succeeds and stores the %v text |
| CsvSource.ZipContents | components/sources/csv/source.go:105-113 | a row's record has exactly the header's names, and each name holds the field of its last occurrence |
| CsvSource.ZipKeys | components/sources/csv/source.go:105-113 | the names in a row's record are exactly the header's names, proved by induction over the row |
| CsvSource.ZipValues | components/sources/csv/source.go:105-113 | a header name that does not occur again later in the header maps to its own field of the row (a later duplicate overwrites an earlier one) |
| CsvSource.Source.Open | components/sources/csv/source.go:54-90 | missing file_path, a missing file, an unusable delimiter (the zero rune when none is configured, a quote or a line break), an empty file and a broken header give their own errors; the first rune of a non-empty delimiter is kept; otherwise the first row becomes the header and the line count is 1 |
| CsvSource.Source.Read | components/sources/csv/source.go:95-116 | an unusable delimiter fails every read; end of input is end of data; a reader error names the next line; a row whose width differs from the header is refused by encoding/csv with its "wrong number of fields" error naming the row's file line, and the line count is not advanced; otherwise the row zipped with the header |
| CsvSource.Source.Column | components/sources/csv/source.go:127-133 | the identity mapping over exactly the header names |
| CsvSource.Source.Close | components/sources/csv/source.go:119-124 | closes the file only when one was opened, with the file system's answer |
| JsonSource.SampleLimit | components/sources/json/source.go:63-68 | 100 unless keys_sample_rows parses as a non-negative integer, which then wins |
| JsonSource.SampleFrom | components/sources/json/source.go:87-107 | the sampling loop from any point gathers the keys of the objects up to the sample limit (all of them for 0) |
| JsonSource.SampleIsUnion | components/sources/json/source.go:87-113 | when the sampled objects decode, the columns are exactly the union of their keys |
| JsonSource.SampleKeys | components/sources/json/source.go:86-107 | the sampling loop yields exactly the key set of the sampling function, or its decode error |
| JsonSource.AddKeys | components/sources/json/source.go:100-102 | the key set grows by exactly the object's keys |
| JsonSource.ListKeys | components/sources/json/source.go:109-113 | the key list enumerates the sampled set: every key once, nothing else |
| JsonSource.Answers | components/sources/json/source.go:132-158 | one record per decoded object, in order, then one final non-record answer that is end of data exactly when every element decoded and the array closed with ']' |
| JsonSource.Source.Open | components/sources/json/source.go:55-127 | missing file_path, a missing file, a bad first token and a failing sample give their errors; otherwise the keys enumerate the sampled key set and reading restarts at the first element |
| JsonSource.Source.Read | components/sources/json/source.go:132-158 | each call gives the next answer of the element stream and advances only past a record |
| JsonSource.Source.Column | components/sources/json/source.go:169-175 | the identity mapping over exactly the sampled keys |
| JsonSource.Source.Close | components/sources/json/source.go:161-166 | closes the file only when one was opened, with the file system's answer |
| CsvSink.Project | components/sinks/csv/main.go:82-89 | a record's line has one field per header name, in header order: the %v text of the cell, or "" when the record lacks it |
| CsvSink.Rows | components/sinks/csv/main.go:80-93 | one line per record, in record order |
| CsvSink.Accepted | components/sinks/csv/main.go:74-92 | the writer takes lines up to the first one it rejects |
| CsvSink.Sink.OpenAsWritten | components/sinks/csv/main.go:41-59 | as written: missing file_path and a failed create give their errors; otherwise the mapping's names are appended to the header left by an earlier run, and the header-written flag is kept |
| CsvSink.Sink.Open | components/sinks/csv/main.go:41-59 | corrected: on success the header is exactly the mapping's names and no header line is written to the new file yet |
| CsvSink.Sink.Write | components/sinks/csv/main.go:62-101 | records the run ID; an empty batch does nothing; without a writer it fails; otherwise the due header line, then one line per record, go out up to the first rejected line, and the error says which step failed |
| CsvSink.Sink.Close | components/sinks/csv/main.go:104-112 | closes the file only when one is open, with the file system's answer |
| CsvSink.WriteBatch | components/sinks/csv/main.go:73-100 | the body of a non-empty Write: accepted lines appended, header flag set once the header line is accepted, and the matching error |
| CsvSink.WriteRows | components/sinks/csv/main.go:80-93 | the row loop hands each record's line to the writer until one is rejected |
| CsvSink.ProjectRow | components/sinks/csv/main.go:82-89 | the field loop builds exactly the record's line |
| CsvSink.HeaderRejected | components/sinks/csv/main.go:73-76 | a rejected header line stops the batch before any row |
| CsvSink.BatchAccepted | components/sinks/csv/main.go:73-93 | once the due header line is accepted, the accepted prefix is that line then the accepted rows |
| CsvSink.AcceptedPrefix | components/sinks/csv/main.go:80-93 | lines accepted one by one up to n make the accepted prefix n long |
| CsvSink.AcceptedSkip | components/sinks/csv/main.go:80-93 | accepted lines at the front can be skipped when counting |
| CsvSink.RowsAppend | components/sinks/csv/main.go:80-93 | the lines of two batches are the lines of their concatenation |
| CsvSink.HeaderOnce | components/sinks/csv/main.go:62-101 | over any run of batches the header line appears once, first, and only when some record arrived and the header is non-empty; rows follow in arrival order |
| CsvSink.AllAccepted | components/sinks/csv/main.go:80-93 | a writer that accepts every line accepts the whole batch |
| CsvSink.SecondRunAsWritten | components/sinks/csv/main.go:54-56 | as written, a second run of the same sink writes a doubled row and no header line |
| CsvSink.SecondRunIntended | components/sinks/csv/main.go:41-59 | with the corrected Open, the second run's file starts with its header line |
| JsonSink.Encodings | components/sinks/json/main.go:74-78 | one encoding per record |
| JsonSink.BodyJoin | components/sinks/json/main.go:74-84 | when every record encodes, the batch body is the encodings joined by ",\n" |
| JsonSink.BodyFailure | components/sinks/json/main.go:74-77 | the first rejected record ends the body with its error |
| JsonSink.Sink.Open | components/sinks/json/main.go:39-55 | missing file_path and a failed create give their errors; otherwise a fresh empty file with an encoder |
| JsonSink.Sink.Write | components/sinks/json/main.go:58-92 | records the run ID; an empty batch writes nothing; without an encoder it fails; otherwise the file gains "[\n", the body and "\n]", or stops at a rejected record with its error |
| JsonSink.Sink.Close | components/sinks/json/main.go:95-100 | closes the file only when one is open |
| JsonSink.SplitCons | components/sinks/json/main.go:74-89 | a text without a newline is one line of a split |
| JsonSink.WithNewlines | components/sinks/json/main.go:74-78 | the encoder's output is each record's text followed by a newline |
| JsonSink.TailLines | components/sinks/json/main.go:74-89 | after "[", a batch reads back as the element lines, then an empty line and "]" |
| JsonSink.FramedLines | components/sinks/json/main.go:69-89 | a whole batch reads back line by line as "[", the records' texts with a "," line between two, an empty line and "]" |
| JsonSink.ElementLinesOrder | components/sinks/json/main.go:74-84 | the records' texts appear in order at the even lines with "," lines between them |
| SqlSink.Targets | components/sinks/sql/mian.go:131-139 | one target column per mapping key, in the order the mapping is visited |
| SqlSink.ArgsLayout | components/sinks/sql/mian.go:149-158 | there are records times keys arguments, and argument i*width+j is record i's cell for key j, nil when absent |
| SqlSink.BuildQuery | components/sinks/sql/mian.go:130-146 | the column and placeholder loop yields the INSERT naming each target column, quoted, in visiting order, with one placeholder group per record |
| SqlSink.BuildArgs | components/sinks/sql/mian.go:148-158 | the argument loop yields record by record each record's cell for every key in visiting order, nil when absent |
| SqlSink.Sink.Open | components/sinks/sql/mian.go:77-108 | checks in order the mapping is non-empty, the datasource yields a handle, the table is named, a handle is present; what was stored before a failing check stays stored |
| SqlSink.Sink.Write | components/sinks/sql/mian.go:111-168 | an empty batch does nothing; no handle and a failed begin are errors; otherwise exactly one INSERT with a placeholder group per record and the laid-out arguments is executed, and its error or the commit's answer is returned |
| SqlSink.Sink.CloseAsWritten | components/sinks/sql/mian.go:171-173 | as written: closing without a stored datasource dereferences nil |
| SqlSink.Sink.Close | components/sinks/sql/mian.go:171-173 | corrected: closes the stored datasource, and answers nil when none was stored |
| SqlSink.CopiesSnoc | components/sinks/sql/mian.go:143-144 | one more placeholder group is one more copy at the end |
| SqlSink.EmptyMappingThenClose | components/sinks/sql/mian.go:79-81 | an Open refused for an empty mapping, then the engine's Close: a nil dereference as written, no error corrected |
| SqlSink.SetCustomNamePostgreAsWritten | components/sinks/sql/mian.go:25-28 | as written: renames the postgre sink but stores the new datasource name in the mysql variable |
| SqlSink.SetCustomNamePostgre | components/sinks/sql/mian.go:25-28 | corrected: both postgre names change and nothing else |
| SqlSink.PostgreDatasourceRename | components/sinks/sql/mian.go:22-28 | renaming the postgre datasource leaves the postgre sink on "postgre" and moves the mysql sink's datasource, where the corrected version does the opposite |
| DorisSink.Cell | components/sinks/doris/main.go:136-141 | an absent key gives nil; a present one its value |
| DorisSink.RowContents | components/sinks/doris/main.go:134-142 | a row object has exactly the columns of the visited keys, and a column fed by one key holds that key's cell |
| DorisSink.RowKeys | components/sinks/doris/main.go:134-142 | when the mapping is visited in full, the row object's keys are exactly the mapping's columns |
| DorisSink.Rows | components/sinks/doris/main.go:131-144 | one row object per record, in record order, each built with that record's own visiting order of the mapping |
| DorisSink.Sink.Open | components/sinks/doris/main.go:52-98 | checks in order the mapping, the table, then host, user, database and port from the datasource; on success the URL is the Stream Load URL of those settings |
| DorisSink.Sink.Write | components/sinks/doris/main.go:121-189 | an empty batch sends nothing; a marshal or request error stops before sending; otherwise exactly one authenticated PUT of the row array is sent, the mapping visited in its own order for each record, and its answer decides the result |
| DorisSink.Sink.Close | components/sinks/doris/main.go:192-194 | never fails |
| DorisSink.Answer | components/sinks/doris/main.go:165-188 | success exactly when the response is a 200 whose body parses with Status "Success" |
| DorisSink.BuildRow | components/sinks/doris/main.go:134-142 | the inner loop builds exactly the record's row object |
| DorisDatasource.WithScheme | components/datasource/doris/main.go:75-77 | the stored host always starts with "http://", which is added only when missing |
| DorisDatasource.WithSchemeIdempotent | components/datasource/doris/main.go:75-77 | prefixing twice is prefixing once |
| DorisDatasource.OtherSchemeKept | components/datasource/doris/main.go:75-77 | an https host gets "http://" in front of its scheme |
| DorisDatasource.DataSource.Init | components/datasource/doris/main.go:69-79 | never fails; copies the five settings, absent ones as "", and prefixes the host |
| DorisDatasource.DataSource.Open | components/datasource/doris/main.go:59-67 | hands out exactly the five settings |
| DorisDatasource.DataSource.Close | components/datasource/doris/main.go:80-82 | never fails |
| DorisDatasource.SinkUrlIsHttp | components/sinks/doris/main.go:93 | the sink's Stream Load URL over an initialised datasource starts with "http://" |
| SqlVariable.ValidVariable | components/variable/sql/main.go:71-89 | the trimmed, upper-cased query must start with SELECT and contain no dangerous keyword; the prefix is checked first |
| SqlVariable.ValidQuery | components/variable/sql/main.go:77-88 | valid exactly when the normalised query starts with SELECT and contains none of the eight keywords, each failure with its message |
| SqlVariable.FirstDangerous | components/variable/sql/main.go:82-87 | the keyword loop fails exactly when some remaining keyword occurs |
| SqlVariable.GetAsWritten | components/variable/sql/main.go:51-69 | as written: a missing query and an invalid one are errors; a scan that succeeds gives the scanned text; a failed scan answers with the result of closing the datasource |
| SqlVariable.Get | components/variable/sql/main.go:51-69 | corrected: succeeds exactly when the query is present, valid and scans, and then gives the scanned text |
| SqlVariable.FailedQueryLooksEmpty | components/variable/sql/main.go:63-67 | a valid query whose scan fails, on a datasource that closes cleanly, gives the empty value as written and an error corrected |
| SqlVariable.SelectOneAccepted | components/variable/sql/main.go:71-89 | "SELECT 1" is a valid variable query |
| SqlVariable.UpdatedAtRejected | components/variable/sql/main.go:82-87 | a keyword inside a column name, in any case, still refuses the query |
| SqlVariable.KeywordRejected | components/variable/sql/main.go:82-87 | a SELECT query holding any dangerous keyword is refused for that reason |
| Registry.Factory.Register | etl/factory/factory.go:24-122 | a name already in the kind's table is fatal, and so is a declared datasource that is not registered; otherwise the store is added to that kind's table and nothing else changes; every declared dependency stays a registered datasource |
| Registry.Factory.Create | etl/factory/factory.go:123-170 | succeeds exactly when the name is registered for the kind, with that store; otherwise the "no … registered with name" error for the kind |
| Registry.Factory.GetTypeList | etl/factory/factory.go:171-213 | every registered name of the kind, each exactly once |
| Startup.KeysWithin | etl/init.go:25-64 | a table built by registering creators holds no name that is not one of theirs |
| Startup.NameAbsent | etl/init.go:25-64 | a name no creator carries is not in the table |
| Startup.StoresLookup | etl/init.go:25-64 | with distinct names, each creator's store is found under its name |
| Startup.RegisterAll | etl/init.go:25-64 | registering creators with distinct names into an empty table never halts and fills exactly that kind's table |
| Startup.RegisterNext | etl/init.go:25-64 | one Register of a batch: a creator whose name is new and whose datasource is registered is added to its kind's table and nothing halts |
| Startup.RegisterDatasources | etl/init.go:27-30 | the four datasources are registered first, into their table alone |
| Startup.Init | etl/init.go:25-64 | start-up never halts and leaves each of the six tables holding exactly the creators registered for its kind |
| Startup.RegisterSqlKind | etl/init.go:33-40 | the mysql, postgre and sqlite variables (or executors) fill their kind's table |
| Startup.RegisterSources | etl/init.go:43-47 | the five sources fill the source table |
| Startup.RegisterSinks | etl/init.go:50-55 | the six sinks fill the sink table |
| Startup.RegisterProcessors | etl/init.go:58-62 | the five processors fill the processor table |
| Startup.DatasourceTable | etl/init.go:27-30 | the datasource names are distinct: doris, mysql, postgre and sqlite |
| Startup.SqlTable | etl/init.go:33-40 | mysql, postgre and sqlite, distinct, each depending on the registered datasource of its own name |
| Startup.SourceTable | etl/init.go:43-47 | five distinct sources; only csv and json need no datasource, the others depend on a registered one of their own name |
| Startup.SinkTable | etl/init.go:50-55 | six distinct sinks; only csv and json need no datasource, the others depend on a registered one of their own name |
| Startup.ProcessorTable | etl/init.go:58-62 | five distinct processors, none depending on a datasource |
| Files.NormalizeExt | server/utils/file/file.go:151-153 | the extension always starts with a dot, which is added only when missing |
| Files.StoredName | server/utils/file/file.go:156-158 | the display name loses one trailing copy of the extension, and is otherwise unchanged |
| Files.Store.constructor | server/utils/file/file.go:107-117 | an empty store resolving relative paths against the working directory |
| Files.Store.Abs | server/utils/file/file.go:112 | a "./" path resolves under the working directory |
| Files.Store.GetFilePath | server/utils/file/file.go:107-117 | succeeds exactly for a recorded file, with a path ending in its folder, id and extension; otherwise "file record does not exist" |
| Files.Store.CreateOutputFile | server/utils/file/file.go:150-177 | records an empty output file under the fresh id with the normalised extension and the trimmed name, and returns the id and its absolute path; a clashing id fails the insert |
| Files.DeleteState | server/utils/file/file.go:71-105 | an unknown id fails and changes nothing; otherwise the record goes, no bytes or links are added, the file's bytes are gone and every other file's links stay |
| Files.Keep | server/utils/file/file.go:192-213 | a missing record is the one error; the bytes stay; a record whose bytes never appeared is dropped; a kept record gets the size of its bytes and one link to the run, and other records are untouched |
| Files.Store.DeleteFile | server/utils/file/file.go:71-105 | the tables end as DeleteState gives: an unknown id fails; otherwise the record is removed, and when the bytes exist they and the file's task links go too |
| Files.Store.SaveOutputFileAsWritten | server/utils/file/file.go:179-218 | as written: the tables and errors are those of the loop over the ids (Files.Save) with the step as written; on a failed run every file is deleted and then reported missing, one error per file |
| Files.Store.SaveOutputFile | server/utils/file/file.go:179-218 | corrected: the tables and errors are those of the loop over the ids; only missing records are reported, and a missing one always is; distinct recorded ids give no error; a failed run deletes exactly the listed records, removes their bytes and keeps other files' links; a successful run keeps the bytes, leaves unlisted records unchanged, and records each kept file's size and links it to the run |
| Files.SaveSnoc | server/utils/file/file.go:180-215 | one more id is one more turn of the loop, its errors appended after the earlier ones |
| Files.SaveErrors | server/utils/file/file.go:180-218 | the corrected loop reports only missing records, at most one per id |
| Files.SaveRecords | server/utils/file/file.go:180-215 | no record is added; an unlisted id keeps its membership and its contents |
| Files.MissingReported | server/utils/file/file.go:189-192 | if a listed id has no record, the save does not return nil |
| Files.PresentClean | server/utils/file/file.go:180-218 | distinct ids that all have records give no error |
| Files.SaveReportsExactly | server/utils/file/file.go:180-218 | for distinct ids, no error exactly when every id has a record, on a failed run and on a successful one |
| Files.FailedRunDeletes | server/utils/file/file.go:182-187 | a failed run removes exactly the listed records, adds no bytes or links, keeps every unlisted file's links and, for distinct ids, removes each listed file's bytes |
| Files.SuccessfulRunKeeps | server/utils/file/file.go:192-213 | a successful run leaves the bytes alone and keeps every link; each listed file that keeps its record has the size of its bytes and a link to the run |
| Files.AsWrittenAgrees | server/utils/file/file.go:182-192 | the code as written leaves the same tables as the corrected loop, reports the same on a successful run, and on a failed run reports one missing record per id |
| Files.WithoutFile | server/utils/file/file.go:95 | keeps exactly the link rows that do not name the file |
| Values.HexEncode | components/processors/maskData/main.go:94 | two lower-case hex digits per byte, high nibble first |
| Values.HexEncodeInjective | components/processors/maskData/main.go:94 | hex encoding is injective: equal encodings come from equal bytes |
| Values.Setting | components/datasource/doris/main.go:70-74 | a string map read the Go way: the value, or "" for an absent key |
| Values.ParseInt64 | components/sources/json/source.go:65 | accepts exactly an optional + or - followed by one or more decimal digits whose signed value lies in the int64 range, and answers that signed value; anything else, the empty text included, is refused |
| Values.IdentityColumns | components/sources/csv/source.go:127-133 | the identity mapping over exactly the given names |
| Values.ParseFormatInt | components/processors/convertType/main.go:79-83 | printing an int64 in decimal and parsing it back gives the same number |
| Text.TrimSuffix | server/utils/file/file.go:156-158 | removes one trailing copy of the suffix when present, and nothing otherwise |
| Text.IndexOf | server/api/middleware.go:19-21 | the first position of the character, or none exactly when it does not occur |
| Text.Split | etl/pipeline/engine.go:412 | at least one part, none holding the separator |
| Text.ToUpper | components/variable/sql/main.go:74 | upper-cases each character in place, keeping the length |
| Text.RepeatJoin | components/sinks/sql/mian.go:143-144 | the repeated placeholder group is n copies of the group joined by "," |
| Text.ReplaceAllAbsent | server/task/task.go:113-115 | replacing a placeholder that does not occur changes nothing |
| TaskRunner.Placeholders | server/task/task.go:94-95 | every match of the variable pattern is a "${…}" placeholder |
| TaskRunner.PlaceholdersEmpty | server/task/task.go:94-97 | a configuration has no placeholder exactly when no "${" in it is followed by a "}" |
| TaskRunner.PlaceholdersOccur | server/task/task.go:94-95 | every match is a piece of the configuration text |
| TaskRunner.VariableName | server/task/task.go:101-102 | the variable a placeholder names is the placeholder without "${" and "}" |
| TaskRunner.VariableNameInjective | server/task/task.go:99-102 | two placeholders naming the same variable are the same placeholder |
| TaskRunner.ResolveOnce | server/task/task.go:99-111 | each distinct placeholder is looked up once, with its own lookup's answer; success covers every match; a failure names a match whose lookup failed |
| TaskRunner.ResolveValues | server/task/task.go:99-111 | the gathered values and the failure come from the matches' own lookups |
| TaskRunner.ResolveCovers | server/task/task.go:99-111 | a successful resolution has a value for every match |
| TaskRunner.ResolveCount | server/task/task.go:99-111 | one lookup per gathered value, plus the failed one |
| TaskRunner.ResolveFailedStays | server/task/task.go:103-107 | once a lookup has failed, the later matches change nothing |
| TaskRunner.SubstituteAbsent | server/task/task.go:113-115 | a text holding none of the placeholders is left as it is |
| TaskRunner.Scheduler.constructor | server/task/task.go:27-30 | an empty cron scheduler |
| TaskRunner.CancelMission | server/task/task.go:151-160 | the mission takes the given status and loses its cron entry, which is removed from the scheduler when it had one |
| TaskRunner.ScheduleMission | server/task/task.go:162-181 | manual missions and unparseable cron expressions are refused with their messages and change nothing; otherwise one new entry runs the mission, which becomes scheduled, not running, and holds the entry ID |
| TaskRunner.RunMissionManual | server/task/task.go:182-190 | a manual run starts exactly when the mission is not running |
| TaskRunner.AfterRun | server/task/task.go:128-144 | after a run the mission is not running and records its end; success records "Success" and the start time; a failure records its message, and a failed system run is paused (status 2) and unscheduled |
| TaskRunner.Middleware | server/task/task.go:72-149 | a system run of an unscheduled mission is refused; a running mission is skipped; otherwise the mission is marked running, its placeholders are resolved, substituted and re-parsed, any failure there stops the run with the mission left marked running, and a run's outcome is recorded as AfterRun says |
| TaskRunner.ResolveAll | server/task/task.go:99-111 | the resolution loop computes exactly the resolution the specification function describes |
| TaskRunner.SubstituteAll | server/task/task.go:113-115 | the replacement loop computes exactly the substituted text |
| TaskRunner.RecordResult | server/task/task.go:209-222 | a run is recorded as succeeded ("ok") exactly when it returned no error and was not cancelled; an error is recorded with its message; a cancelled clean run with the manual-stop message |
| TaskRunner.Runs.CancelMissionRecord | server/task/task.go:449-457 | a run in progress is cancelled and marked; any other ID is refused with the "not stoppable" message |
| TaskRunner.Runs.RunTaskAsWritten | server/task/task.go:194-445 | as written: the record is created, then finished with the status and message RecordResult gives; the cancel marker is deleted under the mission's ID, so the record's marker stays |
| TaskRunner.Runs.RunTask | server/task/task.go:194-445 | corrected: the same, with the marker deleted under the record's ID, so a cleanly finished cancelled run leaves no marker |
| TaskRunner.CancelledRunMarker | server/task/task.go:209-214 | a run cancelled by hand is recorded as stopped by hand, and leaves its marker as written but not corrected |
| TaskApi.TaskTable.AddTask | server/api/task.go:16-32 | a cron expression other than "manual" must parse; a failed insert is reported; otherwise exactly one new unscheduled task with the request's fields is stored |
| TaskApi.TaskTable.DeleteTask | server/api/task.go:33-48 | an unknown task and a scheduled task are refused with their messages; otherwise it is removed exactly when the delete succeeds |
| TaskApi.TaskTable.UpdateTask | server/api/task.go:61-83 | the cron expression is checked before the lookup; an unknown or scheduled task is refused; otherwise name, cron and data are replaced and it becomes unscheduled |
| TaskApi.TaskTable.RunTask | server/api/task.go:85-131 | unknown, manual and already scheduled tasks and a failed status save are refused with their messages and change nothing; otherwise it gets a cron entry and status 1, and a failed commit is "system error" |
| TaskApi.TaskTable.StopTaskAsWritten | server/api/task.go:133-142 | as written: only a scheduled task is stopped, its cron entry removed from the scheduler, and the scheduler is otherwise untouched; but an unknown ID makes the deferred save insert an empty task |
| TaskApi.TaskTable.StopTask | server/api/task.go:133-142 | corrected: succeeds exactly for a scheduled task, which becomes unscheduled and loses its cron entry; nothing is written otherwise |
| TaskApi.StopUnknownTask | server/api/task.go:134-136 | stopping an ID that names no task grows the table as written and leaves it alone corrected |
| TaskApi.CancelTaskRecord | server/api/task.go:278-292 | an unknown record, a finished record and a run no longer in progress are refused with their messages; otherwise the run is cancelled and marked |
| TaskApi.Filtered | server/api/task.go:261-270 | the filtered list is no longer than the records |
| TaskApi.FilteredMembers | server/api/task.go:261-270 | a record is listed exactly when it is one of the records and passes the ID filter (unless empty) and the status filter (unless -1) |
| TaskApi.UnfilteredAll | server/api/task.go:261-270 | with neither filter set every record is listed, in order |
| TaskApi.Page | server/api/task.go:271 | a page holds at most the page size and at most the list |
| TaskApi.PagesTile | server/api/task.go:271 | pages 1 to n of one size, one after the other, are exactly the first n pages' worth of records, with no gap and no overlap |
| TaskApi.RecordList | server/api/task.go:258-276 | the total counts the filtered records, and the page holds only filtered records, at most the page size |
| Pipeline.Effective | etl/pipeline/engine.go:66-74 | a positive configured size is used as is; zero or negative selects the default |
| Pipeline.Engine.constructor | etl/pipeline/engine.go:65-95 | NewEngine keeps the id, makes no component call, and falls back to the default batch and channel sizes for non-positive ones |
| Pipeline.WrittenEvents | etl/pipeline/engine.go:389-394 | one Write call per batch handed to the sink, carrying that batch, in order |
| Pipeline.ResolvePaths | etl/pipeline/engine.go:411-425 | file_ids resolves exactly when every listed id has a file record, and then to the absolute path GetFilePath gives each, in list order |
| Pipeline.HandleKey | etl/pipeline/engine.go:400-440 | keys other than file_id, file_ids and file_name pass through untouched; file_id succeeds exactly when its id is known and gives file_path its absolute path; file_ids succeeds exactly when every id is known and gives file_paths their absolute paths joined with "," in list order; file_name creates an output-file record under a fresh id and gives file_path its path; a failure is "<key> config is invalid" and changes no record |
| Pipeline.Step | etl/pipeline/engine.go:401-440 | one turn of the configuration loop: on success every key seen so far, this one included, is handled as the key specification says and the output-file id is the one a file_name key created; on failure the file records are untouched, the error is the key's "config is invalid" message, and the key is a file_id with an unknown id, a file_ids with an unknown id or a file_name whose fresh id is taken |
| Pipeline.HandledAll | etl/pipeline/engine.go:396-443 | once every key of the configuration is handled, the loop invariant gives the final keys, values, paths and output record in terms of the configuration itself |
| Pipeline.HandleInternalConfig | etl/pipeline/engine.go:396-443 | a nil configuration is returned unchanged; file records are only added; on success the keys are the original ones plus file_path (for file_id or file_name) and file_paths (for file_ids), every other key keeps its value, file_paths is the joined absolute paths of the listed ids, file_path is the path of the file_id record or of the new output file, and the output-file id is returned exactly for file_name with the record CreateOutputFile makes; with known references and a fresh id no error occurs |
| Pipeline.AppliedGrow | etl/pipeline/engine.go:105-149 | what HandleInternalConfig left for a configuration still holds after later configurations add records under new ids |
| Pipeline.AllAppliedGrow | etl/pipeline/engine.go:105-149 | the same for every configuration handled so far |
| Pipeline.AllAppliedSnoc | etl/pipeline/engine.go:105-149 | handling one more configuration adds it, with its result, to those resolved |
| Pipeline.PrepareOne | etl/pipeline/engine.go:105-149 | one configuration is handled; on success its output-file id, if any, is appended and is a new record, the configuration is resolved as HandleInternalConfig promises and those handled before it stay resolved; records only gain new ids; on failure the id list is unchanged |
| Pipeline.Prepare | etl/pipeline/engine.go:105-149 | the configurations are handled in Run's order (before, after, source, sink, processors) and the first failure ends preparation without output-file ids; on success each of them is resolved, in that order, against the final records as HandleInternalConfig promises; every collected id is a freshly created file record; existing records are unchanged; the processors keep their count |
| Pipeline.PrepareFixed | etl/pipeline/engine.go:105-139 | the before, after, source and sink configurations are handled in that order, and on success each is resolved against the final records; the collected ids are new file records and existing records are unchanged |
| Pipeline.PrepareProcessors | etl/pipeline/engine.go:140-149 | each processor's configuration is handled in order; on success there is one resolved configuration per processor after those already resolved, and every collected id stays a new file record |
| Pipeline.Engine.Open | etl/pipeline/engine.go:185-218 | the opening calls made are exactly those of the opening sequence up to and including the first failure, which is the error reported |
| Pipeline.Engine.OpenChain | etl/pipeline/engine.go:206-213 | each processor gets HandleColumns then Open in order; the calls, the final mapping and the first failure are those of the processor-opening specification |
| Pipeline.Engine.PassThrough | etl/pipeline/engine.go:311-346 | a record goes through the processors in order until one filters it out, fails, or a cancellation check observes the run was cancelled |
| Pipeline.Engine.Flush | etl/pipeline/engine.go:375-385 | after the input closes a non-empty partial batch gets one last Write, whose failure is reported as a final-flush error |
| Pipeline.Engine.RunStages | etl/pipeline/engine.go:220-238 | the three workers, record by record, produce exactly the Read calls, Write batches and worker errors of the stream specification |
| Pipeline.Engine.CollectErrors | etl/pipeline/engine.go:242-253 | the worker errors received are joined in order as "first; second; ..."; none gives no error |
| Pipeline.Engine.RunAfter | etl/pipeline/engine.go:254-267 | the after executor is opened then closed when configured, and the first failure is reported with its open or close message |
| Pipeline.Engine.CloseAll | etl/pipeline/engine.go:151-182 | the deferred closer closes sink, processors and source in that order, and keeps a close failure only when no earlier error was recorded |
| Pipeline.Engine.Continue | etl/pipeline/engine.go:220-268 | after a successful opening sequence: streaming, then the after executor only without worker errors, then the closer, with the calls and error of the specification |
| Pipeline.Engine.WindDown | etl/pipeline/engine.go:242-268 | after the stream: with worker errors only the closer runs and keeps the joined worker error; otherwise the after executor runs, then the closer; calls and error as specified |
| Pipeline.Engine.AfterAndClose | etl/pipeline/engine.go:254-267 | after a clean stream the after executor's calls come before the closer's, and the after executor's error takes precedence over any close failure |
| Pipeline.Engine.Execute | etl/pipeline/engine.go:151-268 | the calls made and the error returned are those of the whole-run specification |
| Pipeline.Engine.Launched | etl/pipeline/engine.go:151-268 | after a failed opening sequence only the closer runs and the opening error survives; after a successful one the stream, the after executor and the closer follow as specified |
| Pipeline.Engine.Run | etl/pipeline/engine.go:98-269 | a preparation failure makes no component call, saves no output file and is reported; otherwise every configuration is resolved against the records after preparation, the calls are those of the run specification, the file store ends as the output-file save leaves it, told whether the run failed, and the error is the run's, joined with "pipeline: failed to save output file: " and the save errors when there are any |
| PipelineProperties.ChunksFlatten | etl/pipeline/engine.go:349-386 | the sink's batches put back together are the records in their arrival order |
| PipelineProperties.ChunksShape | etl/pipeline/engine.go:349-386 | there are ceil(N / batch size) batches; all but the last are full and none is empty |
| PipelineProperties.ChunksFull | etl/pipeline/engine.go:362-372 | a full batch in front is written on its own and the batching starts afresh after it |
| PipelineProperties.ThroughUncancelled | etl/pipeline/engine.go:311-346 | without cancellation or processor errors a record reaches the sink exactly when every processor passes it on, transformed by each in turn |
| PipelineProperties.StreamFromNominal | etl/pipeline/engine.go:272-386 | from any point without cancellation, processor or Write errors, the stream writes the remaining outputs in batches and reports only Read errors |
| PipelineProperties.StreamNominal | etl/pipeline/engine.go:272-386 | without cancellation, processor or Write errors the sink writes every surviving record in source order in batches, reading stops at the first io.EOF or Read error, and only a Read error is reported |
| PipelineProperties.WriteCount | etl/pipeline/engine.go:349-394 | in such a run the Write calls carry exactly the surviving records, ceil(N / batch size) calls of them |
| PipelineProperties.ThroughErrors | etl/pipeline/engine.go:311-346 | a record whose passage halts produces at most one processor error |
| PipelineProperties.FlushShape | etl/pipeline/engine.go:375-385 | the final flush keeps the batches shaped and adds at most one error |
| PipelineProperties.StreamFromWrites | etl/pipeline/engine.go:349-386 | whatever happens, every batch written is non-empty and at most the batch size, and only the last may be short |
| PipelineProperties.StreamFromErrors | etl/pipeline/engine.go:272-386 | a stream reports at most two worker errors beyond those already reported |
| PipelineProperties.StreamShape | etl/pipeline/engine.go:349-386 | in every run, cancelled or failing or not, no batch is empty, none exceeds the batch size and only the last may be short |
| PipelineProperties.OpenProcessorsOrder | etl/pipeline/engine.go:206-213 | processors are opened in order, HandleColumns before Open for each, and when all succeed the mapping has passed through every processor |
| PipelineProperties.OpenProcessorsExtend | etl/pipeline/engine.go:206-213 | the processor loop only appends calls to what came before, and only HandleColumns and Open calls |
| PipelineProperties.OpenProcessorsSuccess | etl/pipeline/engine.go:206-213 | when every processor opens, the calls are HandleColumns then Open for each in order and the mapping has passed through every processor |
| PipelineProperties.SetupOrder | etl/pipeline/engine.go:185-218 | a successful opening sequence is: before executor opened and closed (if any), source opened, each processor's HandleColumns then Open, sink opened with the final mapping |
| PipelineProperties.SetupOnlyOpens | etl/pipeline/engine.go:185-218 | the opening sequence makes no Write, close of a started component or after-executor call |
| PipelineProperties.FirstCloseErrorAppend | etl/pipeline/engine.go:151-182 | the first close failure of two lists in sequence is the first list's, or else the second's |
| PipelineProperties.CloseProcessorsFacts | etl/pipeline/engine.go:157-163 | processors are closed from last to first, and a recorded error wins over their close failures |
| PipelineProperties.ClosingOrder | etl/pipeline/engine.go:151-182 | the closer always closes the sink, then every processor from last to first, then the source |
| PipelineProperties.ClosingKeepsFirstError | etl/pipeline/engine.go:151-182 | the run's error after closing is the earlier error if there was one, else the first close failure in closing order |
| PipelineProperties.SetupFailureStartsNoWorker | etl/pipeline/engine.go:185-218 | when the opening sequence fails no worker starts, nothing is written, the after executor is not run and that failure is the run's error |
| PipelineProperties.DescendingOnlyCloses | etl/pipeline/engine.go:157-163 | the processor closing calls are all closes |
| PipelineProperties.AfterRunsOnlyWithoutWorkerErrors | etl/pipeline/engine.go:242-267 | the after executor is opened exactly when the opening sequence succeeded, it is configured and no worker reported an error |
| PipelineProperties.AfterInWind | etl/pipeline/engine.go:242-267 | after the stream, the after executor is opened exactly when it is configured and no worker reported an error |
| PipelineProperties.CancelledRunStillRunsAfter | etl/pipeline/engine.go:242-267 | a run cancelled from outside before the first Read reports no worker error, so its after executor still runs |
| ApiParams.FirstWithKey | server/api/dataSource.go:48-50 | absent exactly when no submitted parameter has the key; otherwise the position of the first one that does |
| ApiParams.CheckParams | server/api/dataSource.go:46-62 | the nested loop accepts exactly when every declared parameter is submitted and, when required, its first submission is non-empty |
| ApiParams.CompleteExtra | server/api/variable.go:57-71 | submitting more parameters after a complete set keeps it complete |
| ApiParams.FirstIsOnly | server/api/variable.go:59-66 | with distinct keys the first submission of a key is its only one |
| ApiParams.CompleteDistinct | server/api/variable.go:57-71 | with distinct keys the check accepts exactly when every declared key is submitted with a non-empty value where required |
| ApiParams.SatisfiedDistinct | server/api/variable.go:57-71 | with distinct keys one declared parameter is satisfied exactly when some submission of it is non-empty where required |
| DatasourceApi.CreateClashes | server/api/dataSource.go:32-45 | creating under the name of any stored datasource is refused |
| DatasourceApi.EditKeepsOwnName | server/api/dataSource.go:37-40 | editing a datasource without renaming it never clashes with itself |
| DatasourceApi.DataSourceTable.constructor | server/api/dataSource.go:27-76 | the table starts empty, with unique IDs and names |
| DatasourceApi.DataSourceTable.NewDataSource | server/api/dataSource.go:27-76 | checks in order: registered type, free name (other rows when editing), complete parameters, an existing record when editing, the save; each failure has its message and changes nothing; success stores the row under the edited or a fresh ID and keeps names unique |
| DatasourceApi.DataSourceTable.DeleteDataSource | server/api/dataSource.go:89-99 | an unknown ID is "datasource handle not found"; a failed delete changes nothing; success removes exactly that row |
| VariableApi.DatasourceError | server/api/variable.go:73-90 | a type that declares a datasource type needs a stored datasource of exactly that type, and one that declares none accepts none; each violation has its own message |
| VariableApi.DeleteLeavesDangling | server/api/dataSource.go:89-99 | deleting a datasource that a variable refers to leaves that variable's reference unresolved |
| VariableApi.VariableTable.constructor | server/api/variable.go:24-105 | the table starts empty, with unique IDs and names |
| VariableApi.VariableTable.NewVariable | server/api/variable.go:24-105 | checks in order: free name (other rows when editing), an existing record when editing, registered type, complete value, the datasource rule, the save; success stores the row under the edited or a fresh ID, keeps names unique and keeps every datasource reference resolved |
| VariableApi.VariableTable.DeleteVariable | server/api/variable.go:107-117 | an unknown ID is "variable not exists"; a failed delete changes nothing; success removes exactly that row |
| RequestMiddleware.CanonicalKey | server/api/middleware.go:17 | the canonical MIME header key Header.Get looks up: a key with a character outside the token set is unchanged; otherwise the first letter and each letter after a hyphen are upper case and the other letters lower case, with the length kept |
| RequestMiddleware.CanonicalIdempotent | server/api/middleware.go:17 | a canonical key is its own canonical form |
| RequestMiddleware.HeaderGet | server/api/middleware.go:17-24 | the first value stored under the key's canonical form, or "" when there is none or it has no value |
| RequestMiddleware.RealIpName | server/api/middleware.go:24 | "X-Real-IP" is looked up as "X-Real-Ip" |
| RequestMiddleware.ForwardedName | server/api/middleware.go:17 | "X-Forwarded-For" is already canonical |
| RequestMiddleware.RealIpHeader | server/api/middleware.go:16-30 | a request whose only address header is X-Real-Ip logs that address; a header map holding the name "X-Real-IP" verbatim is not found, so the client address is logged |
| RequestMiddleware.GetRealIP | server/api/middleware.go:16-30 | the X-Forwarded-For value up to its first comma, when that is non-empty; otherwise X-Real-IP (looked up canonically) when set; otherwise the client address |
| RequestMiddleware.ForwardedChain | server/api/middleware.go:17-22 | behind a chain of proxies the logged address is the originating client, the first element of X-Forwarded-For |
| RequestMiddleware.LoggedHeaders | server/api/middleware.go:38-47 | the logged headers are exactly those with a value, except Authorization, each with its first value, whatever order the header map is walked in |
| RequestMiddleware.MatchLanguage | server/api/middleware.go:50-61 | an accepted Accept-Language is kept; any other falls back to "en" |
| RequestMiddleware.Context.constructor | server/api/middleware.go:76-78 | a fresh request context: code 0, no message, no data, no mask flag, not aborted |
| RequestMiddleware.Before | server/api/middleware.go:32-73 | the token and the matched language, read through the canonical header lookup, are stored; the log holds method, path, real IP and exactly the headers other than Authorization that have a value, each with its first value; an unreadable body aborts with code 1 "Fail To Get Body", a readable one is logged as is |
| RequestMiddleware.StatusFor | server/api/middleware.go:87-113 | HTTP 200 exactly for code 0, 400 exactly for codes 1 to 3, and 500 for every other code |
| RequestMiddleware.Finish | server/api/middleware.go:76-113 | the reply carries the code and the translated message, with data exactly on code 0 when data was set; the logged body is "mask" exactly when the mask flag is set |
| AdminRouter.Middlewares | server/router/router.go:11-43 | a run of registrations installs at most one middleware per registration |
| AdminRouter.MiddlewaresAppend | server/router/router.go:15-42 | the middlewares of two runs of registrations in sequence are those of the first, then those of the second |
| AdminRouter.InChain | server/router/router.go:15-42 | a middleware is installed exactly when some registration uses it |
| AdminRouter.AfterAuthArePosts | server/router/router.go:18-42 | everything registered after the authentication middleware is a route |
| AdminRouter.RouteChains | server/router/router.go:15-42 | login runs behind the request middleware only; every later route runs behind the request middleware, then authentication |
| AdminRouter.NoUse | server/router/router.go:19-42 | routes alone install no middleware |
| AdminRouter.MaskedRoutes | server/router/router.go:17-40 | only the login, new-datasource and upload routes have their request bodies masked |
| AdminRouter.OnlyLoginPublic | server/router/router.go:17-19 | every route except login requires a valid token |
| AdminRouter.AdminAPI | server/router/router.go:45-71 | a masked route sets the mask flag first; a request that does not bind aborts with code 1; an endpoint error aborts with code 2 and its message; success is code 0, "ok" and the endpoint's data |
| AdminRouter.Authenticate | server/api/login.go:56-66 | an invalid token aborts with code 3 "invalid token"; a valid one changes nothing |
| AdminRouter.Dispatch | server/router/router.go:15-42 | an aborted request reaches no handler; a protected route with an invalid token gets code 3; otherwise the endpoint's outcome; the mask flag is set exactly for masked routes the handler reaches, or early when the flag is raised first |
| AdminRouter.ServeAsWritten | server/router/router.go:15-42 | as written: never 500, 200 exactly when the request succeeds, but a masked route whose token is invalid logs the raw body |
| AdminRouter.Serve | server/router/router.go:15-42 | corrected: never 500, 200 exactly when the request succeeds with the endpoint's data, and a masked route's body is always logged as "mask" |
| AdminRouter.ExpiredTokenLogsSecret | server/router/router.go:18-19 | a new-datasource request with an expired token logs its connection password as written and "mask" corrected |
| Serializer.Pad | server/model/package.go:219-222 | the padded text keeps the plaintext in front, adds 1 to 16 bytes each equal to the number added, and is a non-empty whole number of blocks |
| Serializer.Unpad | server/model/package.go:155-157 | drops as many trailing bytes as the last byte says, keeping the prefix |
| Serializer.UnpadPad | server/model/package.go:155-157 | unpadding undoes padding for every plaintext |
| Serializer.Plaintext | server/model/package.go:199-210 | a string is encrypted as is, a byte slice as its bytes, anything else as its JSON, whose failure is kept |
| Serializer.Frame | server/model/package.go:224-233 | the stored frame starts with the IV and is one block longer than the padded plaintext exactly when the IV is one block |
| Serializer.Value | server/model/package.go:196-239 | nil stays NULL; a JSON failure, a bad key length and a failed random IV each give their own error with its cause, in that order; otherwise the base64 of the IV followed by the encrypted padded plaintext |
| Serializer.Unframe | server/model/package.go:125-147 | a value that is neither text nor bytes is refused first, with its %#v text; then the key, base64 and cipher steps of Decode |
| Serializer.Decode | server/model/package.go:136-147 | the key is decoded first, then base64, then the cipher is created, each failing with its own message followed by its cause (the key-size error for a bad key); success is the decoded payload under a usable key |
| Serializer.ScanAsWritten | server/model/package.go:124-157 | as written: NULL is left alone, the shared step's errors are kept and a payload shorter than a block is refused, but a payload of exactly one block panics |
| Serializer.Scan | server/model/package.go:124-157 | corrected: never panics; NULL is left alone, the shared step's errors are kept and a payload of one block or less is refused |
| Serializer.ScanAgrees | server/model/package.go:124-157 | the corrected Scan gives every answer the one as written gives except a panic, and decrypts only where that one does too |
| Serializer.RoundTrip | server/model/package.go:124-239 | a value written by Value scans back to its plaintext through both versions of Scan |
| Serializer.IvOnlyPayload | server/model/package.go:148-157 | a payload that decodes to exactly one block panics as written and is refused corrected |

## Left out

- Concurrency: the goroutines, channels, WaitGroup and context of the engine are modelled as the record-at-a-time schedule above. Interleavings in which the source reads ahead of a slow sink are not modelled, and neither is the channel capacity (`channelSize` is kept but bounds nothing).
- Files.Store.SaveOutputFile: the database writes and os.Remove are taken to succeed. Their failures are not modelled: "failed to delete file record", "failed to save file record", "failed to create task record file", "failed to delete file" and "failed to delete task record file". So every error reported is "file record does not exist".
- Files.Store.DeleteFile: the same writes are taken to succeed, so an id with a record always gives Pass.
- Pipeline.Engine.Run: output files are saved through the corrected Files.Store.SaveOutputFile. The code as written calls the helper modelled by Files.Store.SaveOutputFileAsWritten, so a failed run with output files also reports "file record does not exist" once per file (see Findings).
- RenameColumn.Processor.HandleColumns: the loop visits the keys present when it starts and skips the names it inserts, one of the behaviours Go's map range allows. When a column is renamed to a name the mapping renames again (a -> b with b -> c), Go may also visit the inserted name and rename it again. Those outcomes are not modelled, and the reference result is proved only for mappings without such chains.
- FilterRows.ToFloat: an int64 is read as its exact value. The rounding of float64(int64) for magnitudes above 2^53 is not modelled.
- JsonSink.Sink.Write: the file's WriteString calls for "[\n", the "," separators and "\n]" are taken to succeed. Their failures ("failed to write array start", "failed to write separator", "failed to write array end") are file I/O errors that the model does not represent. The encoder's own write failures are modelled through `encode`.
- CsvSource.Source.Read: the column-count check of components/sources/csv/source.go:108-110 has no branch in the model. encoding/csv already refuses such a row, so the check never fails.
- Engine closer: the code keeps only the first close failure (`err == nil` guard), and later close failures are dropped. The model follows the code.
- Logging (zap) everywhere, and the `Md5` of the token that only names log lines.
- Floating point: `strconv.ParseFloat` in filterRows and the float and double conversions of convertType are an uninterpreted partial parse into Float64, which carries an exact real value and its text. Rounding is not modelled, and neither are the values that are not reals. NaN, which ParseFloat accepts as "NaN", compares false with everything, so FilterRows.OrderingComplement does not hold for it. ±Inf ("Inf", "+Inf", "-Inf") have no real value either and are not modelled.
- Foreign libraries are parameters:
  - database/sql and gorm: query outcomes, save/delete success flags and the transaction commit;
  - net/http responses of the Doris stream load;
  - os files;
  - encoding/csv and encoding/json;
  - md5/sha256, AES-CBC, base64 and uuid;
  - the cron parser and JWT decoding;
  - go-i18n translation.
- Database read errors: the "illegal command" and "system error" answers of a failing `Find` in NewDataSource and NewVariable, and a failing record query in the endpoints for tasks, are not modelled. The model treats the table as readable.
- Transaction locking in the endpoints for tasks: the transaction is reduced to its commit outcome. An early return that leaves a transaction open is not modelled.
- TaskApi.RecordList: the MissionName filter (an SQL LIKE over a join) is not modelled; the ID and status filters and the paging are.
- Task endpoints that only read: RunTaskOnce, GetTaskAll, GetTaskById, GetTypeByComponent and GetFileListByTaskRecordID.
- Datasource and variable endpoints that only read or that run a variable: GetDataSourceTypeList, GetDataSourceList, GetVariableList, GetVariableTypeList and TestVariable.
- TaskRunner: `GetValueByName` (a variable's database lookup and its `Get`) is the `resolve` parameter.
- TaskRunner: the JSON re-parse of the substituted configuration is the `parse` parameter.
- TaskRunner.Runs.RunTask: the creation of the components from the registry is folded into one `setupErr` parameter.
- TaskRunner: the startup sweep that resets stale running missions (`SetMissions`) is not modelled.
- Text.ToUpper: upper-cases ASCII letters only; Go's Unicode case mapping is not modelled.
- Serializer.Scan: the reflection dispatch on the destination field's kind (string, bytes, struct or slice through JSON) is not modelled. The in-place decryption is modelled on values.
- The `/file` route group, `AuthMiddlewareFile` and static file serving; login and token generation.
- Startup.Init: `etl/init.go` registers `variable.VariableCreatorSqlite`, which components/variable/sql/main.go does not define. It is modelled by analogy with the MySQL and PostgreSQL creators (name "sqlite", datasource "sqlite").
- Thin drivers: the SQL source, the SQL executor and the MySQL, PostgreSQL and SQLite datasources are `sql.Open`/`Query` wrappers and are not part of this model. They appear only as registry entries.
- Process plumbing (main.go, configuration, log setup), plain type declarations, `CustomTime` and the web frontend are not part of this model.
- TaskRunner middleware: after a variable-resolution or parse failure the mission is left saved with `IsRunning` true. This is modelled as written and not corrected.

## Findings

| source | as written | input that shows it | evidently intended | confidence | as-written member | corrected member |
|---|---|---|---|---|---|---|
| server/utils/file/file.go:182-192 | on a failed run each output file is deleted, then looked up again, which fails | a failed run with one output file | delete the files and report only real failures | not executed | Files.Store.SaveOutputFileAsWritten | Files.Store.SaveOutputFile |
| server/task/task.go:209-214 | the manual-cancel marker is deleted under the mission's ID, not the run record's | a run cancelled by hand through CancelMissionRecord (TaskRunner.CancelledRunMarker) | remove the run record's marker | not executed | TaskRunner.Runs.RunTaskAsWritten | TaskRunner.Runs.RunTask |
| components/sinks/sql/mian.go:171-173 | Close calls the stored datasource's Close without checking it exists | an Open refused for an empty mapping, followed by the engine's Close (SqlSink.EmptyMappingThenClose) | answer nil when no datasource was stored | not executed | SqlSink.Sink.CloseAsWritten | SqlSink.Sink.Close |
| components/sinks/csv/main.go:54-56 | Open appends the mapping's names to the header left by an earlier run and keeps the header-written flag | the same sink instance run twice (CsvSink.SecondRunAsWritten, CsvSink.SecondRunIntended) | each run writes its own header line once | not executed | CsvSink.Sink.OpenAsWritten | CsvSink.Sink.Open |
| components/sinks/sql/mian.go:25-28 | the postgre sink's rename stores the new datasource name in the mysql variable | SetCustomNamePostgre with any datasource name (SqlSink.PostgreDatasourceRename) | rename the postgre sink's datasource | not executed | SqlSink.SetCustomNamePostgreAsWritten | SqlSink.SetCustomNamePostgre |
| components/variable/sql/main.go:63-67 | a failed query answers with the result of closing the datasource | a valid query whose scan fails, on a datasource that closes cleanly (SqlVariable.FailedQueryLooksEmpty) | report the query's failure | not executed | SqlVariable.GetAsWritten | SqlVariable.Get |
| server/model/package.go:148-157 | only a payload shorter than one block is refused | a stored value that decodes to exactly 16 bytes (Serializer.IvOnlyPayload) | refuse a payload with no ciphertext after the IV | not executed | Serializer.ScanAsWritten | Serializer.Scan |
| server/api/task.go:133-142 | the deferred save runs even when no task was found | StopTask with an ID that names no task (TaskApi.StopUnknownTask) | change nothing for an unknown task | not executed | TaskApi.TaskTable.StopTaskAsWritten | TaskApi.TaskTable.StopTask |
| server/router/router.go:17-19 | the mask flag is set inside the handler wrapper, which runs after authentication | a new-datasource request whose token has expired (AdminRouter.ExpiredTokenLogsSecret) | never log a masked route's body | not executed | AdminRouter.ServeAsWritten | AdminRouter.Serve |
