# data_sync — a verified model of the sales-line reconciliation core

data_sync reconciles invoiced sales lines between two systems. One is an ERP reached over OData (Dynamics
`SalesInvoiceLines`). The other is a Snowflake warehouse: it holds a base table, a reporting view and a
processed-lines table `ERP_PROCESSED_SALESLINE`. The backend maps an OData line onto the processed
table's 88 columns and stamps it with a 17-part sales-line key (`SALESLINEPK`). It compares the two
systems line by line for one sales order. From that comparison it generates `INSERT`/`DELETE`/`UPDATE`
SQL corrections and records every executed statement in a query log. It also streams CSV exports and
builds OData filter URLs. The front end offers a correction panel (confirm, execute, roll back), a
query-log browser, a line-download form and a Snowflake dashboard.

This project models that core in Dafny, one module per source file:

- `SalesLinePk`, `ProcessedLinePayload`, `MismatchAnalysis`, `CorrectionScript`, `QueryLog`,
  `OData`, `SnowflakeConfig` and `CsvExport` cover the backend.
- `MapProcessed` covers the field-alignment script.
- `CorrectionPanel`, `LogView`, `LineDownload`, `LineDownloadPage` and `SnowflakeView` cover the React modules.
- `JsValue`, `JsString`, `Seqs` and `Wrappers` are library modules. They model the JavaScript values
  and built-ins the core relies on:
  - a `Value` datatype, with objects as insertion-ordered field lists;
  - `String(v)`, `Number(s)`, `parseInt`, `trim`, `split` and `join`;
  - `toUpperCase` on ASCII and Latin-1 plus ß, ÿ, µ, ı and ſ, and `toLowerCase` on ASCII and Latin-1 plus the Kelvin sign and İ; other characters are left as they are;
  - truthiness and nullishness;
  - `Option`/`Result`.

Pure helpers become functions with lemmas. Code that updates state step by step becomes methods:
`forEach` loops over entries become `while` loops proved against the function they compute. Services
that keep state become classes with `modifies` frames: the query-log service's table flag, the OData
service's token cache, and the React components' `useState` cells. Each React async handler is split
into a step that starts the request and a step that settles it. This is how the re-entrancy guards
become observable.

## Model

| member | source | states |
|---|---|---|
| SalesLinePk.EnsureString | backend/src/utils/salesLinePk.js:1-5 | null/undefined render as "", a Date as its ISO text, anything else as `String(v)` |
| SalesLinePk.NormalizeKey | backend/src/utils/salesLinePk.js:7 | the normal form holds only ASCII digits and upper-case letters |
| SalesLinePk.NormalizeKeyChar | backend/src/utils/salesLinePk.js:7 | one character normalises to its upper-case fold if it is an ASCII letter or digit, and disappears otherwise |
| SalesLinePk.NormalizeKeyAppend | backend/src/utils/salesLinePk.js:7 | normalisation distributes over concatenation |
| SalesLinePk.NormalizeKeyIdempotent | backend/src/utils/salesLinePk.js:7 | normalising twice is normalising once |
| SalesLinePk.NormalizeUpperName | backend/src/utils/salesLinePk.js:7 | a name already made of digits and upper-case letters is its own normal form |
| SalesLinePk.IndexSource | backend/src/utils/salesLinePk.js:9-15 | every source key's normal form is indexed |
| SalesLinePk.IndexSourceDomain | backend/src/utils/salesLinePk.js:9-15 | nothing else is indexed |
| SalesLinePk.IndexSourceLastWins | backend/src/utils/salesLinePk.js:11-13 | when several keys normalise alike, the last one's value wins |
| SalesLinePk.Segments | backend/src/utils/salesLinePk.js:37-42 | there are exactly 17 segments, one per column of the key sequence, in order |
| SalesLinePk.BuildSalesLinePk | backend/src/utils/salesLinePk.js:37-44 | the key has at least 16 hyphens; when no segment contains '-', splitting the key on '-' gives back the 17 segments |
| SalesLinePk.AbsentColumnEmptySegment | backend/src/utils/salesLinePk.js:40-41 | a missing or null column contributes an empty segment |
| SalesLinePk.EmptySourcePk | backend/src/utils/salesLinePk.js:37-44 | an empty source yields sixteen hyphens |
| SalesLinePk.KeyCasingIrrelevant | backend/src/utils/salesLinePk.js:9-15 | sources whose keys differ only in case and punctuation give the same key |
| SalesLinePk.LaterEntryWins | backend/src/utils/salesLinePk.js:11-13 | an appended entry for a key column decides that column's segment |
| SalesLinePk.UnrelatedEntryIrrelevant | backend/src/utils/salesLinePk.js:37-44 | appending an entry whose name is not a key column leaves the key unchanged |
| SalesLinePk.SetUnrelatedIrrelevant | backend/src/utils/salesLinePk.js:37-44 | assigning a non-key property leaves the key unchanged |
| SalesLinePk.SalesLinePkColumnUnrelated | backend/src/utils/salesLinePk.js:17-35 | `SALESLINEPK` is not one of the key columns, so stamping it never changes the key |
| ProcessedLinePayload.ColumnFor | backend/src/utils/processedLinePayload.js:94-96 | a normalised name maps to a processed column with that normal form, or to none when no column has it |
| ProcessedLinePayload.MapEntries | backend/src/utils/processedLinePayload.js:100-110 | only processed columns appear in the mapped row |
| ProcessedLinePayload.MapOntoColumns | backend/src/utils/processedLinePayload.js:100-110 | the loop over the row's entries computes `MapEntries` |
| ProcessedLinePayload.MapOdataRowToProcessedColumns | backend/src/utils/processedLinePayload.js:100-110 | the mapped row is `MapEntries` over the 88 processed columns, so it holds only processed columns |
| ProcessedLinePayload.MapEntriesUnmatched | backend/src/utils/processedLinePayload.js:102-108 | a column that no OData field maps to stays unset |
| ProcessedLinePayload.MapEntriesMatched | backend/src/utils/processedLinePayload.js:102-108 | a column takes the value of the last OData field that maps to it, and that field has the column's normal form |
| ProcessedLinePayload.NonObjectMapsToEmpty | backend/src/utils/processedLinePayload.js:98 | a non-object raw row maps to an empty row |
| ProcessedLinePayload.DefaultObject | backend/src/utils/processedLinePayload.js:112 | an omitted argument defaults to `{}`; any other value, null included, is kept |
| ProcessedLinePayload.ApplySalesId | backend/src/utils/processedLinePayload.js:115-118 | a truthy salesId sets `SALESID`, and sets `DEV_SALESID` only when it was falsy; nothing else changes |
| ProcessedLinePayload.OverrideWins | backend/src/utils/processedLinePayload.js:120-125 | the last defined override of a key decides that key |
| ProcessedLinePayload.OverrideSkipped | backend/src/utils/processedLinePayload.js:120-125 | a key with no defined override keeps its prepared value |
| ProcessedLinePayload.Backfill | backend/src/utils/processedLinePayload.js:127-137 | a truthy column is kept; otherwise a null raw row throws, and a truthy alias value fills the column |
| ProcessedLinePayload.StampKey | backend/src/utils/processedLinePayload.js:139 | `SALESLINEPK` becomes the key built from the payload; every other property is unchanged |
| ProcessedLinePayload.BackfillThreeFails | backend/src/utils/processedLinePayload.js:127-137 | the three back-fills fail exactly when the raw row is null and one of the columns is falsy |
| ProcessedLinePayload.BackfillThreeEffect | backend/src/utils/processedLinePayload.js:127-137 | each back-filled column holds its prepared value or its alias value; every other property is untouched |
| ProcessedLinePayload.PayloadFailsIff | backend/src/utils/processedLinePayload.js:112-141 | building the payload throws exactly when `odataRaw` is null and one of the three back-filled columns is falsy after overrides |
| ProcessedLinePayload.PayloadBackfills | backend/src/utils/processedLinePayload.js:127-137 | in the built payload the three columns are back-filled, and every property other than them and the key is the prepared value |
| ProcessedLinePayload.PayloadKeyStamped | backend/src/utils/processedLinePayload.js:139-140 | the returned payload's `SALESLINEPK` is the key of the returned payload itself |
| ProcessedLinePayload.BuildProcessedPayload | backend/src/utils/processedLinePayload.js:112-141 | the method's result is the payload specification over the mapped row |
| ProcessedLinePayload.CompletePayload | backend/src/utils/processedLinePayload.js:113-140 | applying the salesId, the overrides, the back-fills and the key stamp in sequence yields `PayloadSpec` |
| ProcessedLinePayload.SalesIdStep | backend/src/utils/processedLinePayload.js:115-118 | the in-place salesId assignment computes `ApplySalesId` |
| ProcessedLinePayload.OverrideLoop | backend/src/utils/processedLinePayload.js:120-125 | the `forEach` over overrides computes `ApplyOverrides` |
| ProcessedLinePayload.BackfillLoop | backend/src/utils/processedLinePayload.js:127-137 | the three guarded assignments compute `BackfillAll` |
| MismatchAnalysis.NormalizeAmountFirst | backend/src/services/mismatchAnalysis.js:13-20 | the amount is the numeric value of the first candidate that is neither null, undefined nor "" and converts to a finite number; it is absent exactly when there is no such candidate |
| MismatchAnalysis.NormalizeLineNumber | backend/src/services/mismatchAnalysis.js:7-11 | null, undefined and "" have no line number; any other value's line number is its `Number` conversion when finite |
| MismatchAnalysis.LineNumberIsSingleAmount | backend/src/services/mismatchAnalysis.js:7-20 | normalising a line number is normalising an amount with one candidate |
| MismatchAnalysis.NormalizeStringFirst | backend/src/services/mismatchAnalysis.js:22-29 | the result is the upper-cased trimmed text of the first candidate that is truthy or a number and is not blank once trimmed; it is absent exactly when there is none |
| MismatchAnalysis.NormalizeStringNonEmpty | backend/src/services/mismatchAnalysis.js:22-29 | a normalised string is never empty |
| MismatchAnalysis.IndexDomain | backend/src/services/mismatchAnalysis.js:42-75 | after the `forEach`, the map holds exactly the line numbers of the rows that have one |
| MismatchAnalysis.IndexLastWins | backend/src/services/mismatchAnalysis.js:43-60 | of several rows with the same line number, the last one is kept |
| MismatchAnalysis.OdataFoldFails | backend/src/services/mismatchAnalysis.js:43-46 | indexing the OData lines fails exactly when one of them is null or undefined, because reading a property of it throws |
| MismatchAnalysis.OdataFoldIndexes | backend/src/services/mismatchAnalysis.js:42-60 | when no line is null, the fold is the generic last-wins index of the lines' entries |
| MismatchAnalysis.BuildOdataMap | backend/src/services/mismatchAnalysis.js:42-60 | the loop builds the OData map, or reports the TypeError |
| MismatchAnalysis.BuildSnowMap | backend/src/services/mismatchAnalysis.js:62-75 | the loop builds the last-wins index of the Snowflake rows |
| MismatchAnalysis.SortUnique | backend/src/services/mismatchAnalysis.js:77-78 | the line numbers come out strictly increasing, with exactly the members of the input |
| MismatchAnalysis.FirstFlag | backend/src/services/mismatchAnalysis.js:133 | the status is the first raised flag in the order amount, invoice, canal, or MATCH when none is raised |
| MismatchAnalysis.ClassifyLine | backend/src/services/mismatchAnalysis.js:92-147 | a line missing in OData or in Snowflake gets that status; otherwise the status follows the amount/invoice/canal precedence; the amounts and their difference (nulls read as 0) are reported |
| MismatchAnalysis.MismatchFlags | backend/src/services/mismatchAnalysis.js:107-131 | a flag is raised exactly when its comparison fails |
| MismatchAnalysis.ClassifyFlags | backend/src/services/mismatchAnalysis.js:107-131 | for a line on both sides: amount flag iff both amounts exist and differ by more than 0.005; invoice flag iff both ids exist and differ; canal flag iff both canals exist and differ |
| MismatchAnalysis.ClassifyRaises | backend/src/services/mismatchAnalysis.js:98-131 | each of the five flags is raised exactly in its own case, and the missing-side flags exclude the rest |
| MismatchAnalysis.ClassifyInto | backend/src/services/mismatchAnalysis.js:92-147 | classifying one line pushes its number onto exactly the summary buckets of the flags it raises; nothing else in the summary changes |
| MismatchAnalysis.AnalyzeSalesIdMismatch | backend/src/services/mismatchAnalysis.js:31-168 | the whole analysis computes the `Analysis` specification |
| MismatchAnalysis.ReportLines | backend/src/services/mismatchAnalysis.js:77-148 | one report line per sorted distinct line number; each bucket lists, in order, the lines that raised its flag |
| MismatchAnalysis.BucketMembers | backend/src/services/mismatchAnalysis.js:98-130 | a number is in a bucket iff some report line with that number raised the bucket's flag |
| MismatchAnalysis.AnalysisFails | backend/src/services/mismatchAnalysis.js:31-33 | the analysis fails exactly when the trimmed salesId is empty (message 'salesId requerido') or some OData line is null |
| MismatchAnalysis.AnalysisOk | backend/src/services/mismatchAnalysis.js:40-75 | a successful analysis is the report over the two last-wins indexes |
| MismatchAnalysis.ReportNumbers | backend/src/services/mismatchAnalysis.js:77-78 | report lines are strictly increasing by line number and cover exactly the numbers found on either side |
| MismatchAnalysis.AnalysisLineNumbers | backend/src/services/mismatchAnalysis.js:77-92 | the lines of a successful analysis are strictly increasing and cover exactly the numbers found on either side |
| MismatchAnalysis.ReportSides | backend/src/services/mismatchAnalysis.js:92-94 | a report line lacks a side iff that side has no row with its number; otherwise it carries that side's last row with the number |
| MismatchAnalysis.AnalysisLineSides | backend/src/services/mismatchAnalysis.js:92-94 | the same, for the lines of a successful analysis |
| MismatchAnalysis.AnalysisCounts | backend/src/services/mismatchAnalysis.js:80-90 | the line counts are the sizes of the two maps; the item and date buckets stay empty |
| CorrectionScript.DefaultDataAreaId | backend/src/services/correctionScriptService.js:6 | the fallback data area is null when the environment variable is unset or empty, and the variable's text otherwise |
| CorrectionScript.NormalizeDateText | backend/src/services/correctionScriptService.js:49-55 | blank text has no date; parseable text gives its day; unparseable text gives its first ten characters |
| CorrectionScript.NormalizeDateInputCases | backend/src/services/correctionScriptService.js:43-56 | falsy non-numbers have no date, a Date gives the first ten characters of its ISO text, and blank text has none; an unparseable string gives a non-empty prefix of itself |
| CorrectionScript.EscapeSqlString | backend/src/services/correctionScriptService.js:58 | the literal is quoted, and one character longer per apostrophe in the text |
| CorrectionScript.EscapeSqlStringRoundTrip | backend/src/services/correctionScriptService.js:58 | un-doubling the apostrophes between the quotes gives back the original text |
| CorrectionScript.FormatSqlValue | backend/src/services/correctionScriptService.js:60-61 | null and undefined render as `NULL` |
| CorrectionScript.FormatNumber | backend/src/services/correctionScriptService.js:63-67 | a number column renders `NULL` exactly when the value is not numeric; otherwise a numeral whose last character is a digit; a non-negative integer renders as its decimal numeral, which reads back as the same number |
| CorrectionScript.FormatDate | backend/src/services/correctionScriptService.js:68-71 | the date column renders `'YYYY-MM-DD'::DATE` for a normalisable date and `NULL` otherwise |
| CorrectionScript.FormatString | backend/src/services/correctionScriptService.js:72 | any other column renders a quoted literal that reads back as `String(v)` |
| CorrectionScript.ValuesEqualReflexiveSymmetric | backend/src/services/correctionScriptService.js:109-123 | the column-aware comparison is reflexive and symmetric |
| CorrectionScript.NumbersEqualWithinTolerance | backend/src/services/correctionScriptService.js:110-116 | two numbers in a number column compare equal iff they differ by at most 0.005; null equals "", and null differs from any number |
| CorrectionScript.NullEqualsBlank | backend/src/services/correctionScriptService.js:104-122 | in a string column null and undefined equal an all-blank string |
| CorrectionScript.ReadField | backend/src/services/correctionScriptService.js:75-80 | the value read is truthy or 0, or it is null |
| CorrectionScript.ReadFieldFirst | backend/src/services/correctionScriptService.js:75-80 | it is null iff no name holds a truthy value or 0; otherwise it is the value of the first name that does |
| CorrectionScript.LineRaw | backend/src/services/correctionScriptService.js:83 | the raw row used for a line is never null or undefined |
| CorrectionScript.PayloadFromLine | backend/src/services/correctionScriptService.js:82-96 | the payload built for a line never throws; it carries the line number (when non-zero), the read `LineNum`, the read data area or the fallback, and its own key |
| CorrectionScript.InsertColumns | backend/src/services/correctionScriptService.js:125-136 | a column is inserted iff it is processed, not excluded, and defined in the payload |
| CorrectionScript.BuildSqlInsertParts | backend/src/services/correctionScriptService.js:125-136 | the loop yields the inserted columns and, position by position, their formatted values |
| CorrectionScript.RollbackDeleteOffered | backend/src/services/correctionScriptService.js:138-139 | the DELETE rollback is non-empty and does not start with `-- N/A`, so it is offered |
| CorrectionScript.InsertForShape | backend/src/services/correctionScriptService.js:144-181 | an insert has a rollback iff its key is complete; an incomplete key gives the placeholder comment with a null preview key, and a complete key gives the DELETE rollback |
| CorrectionScript.InsertCandidates | backend/src/services/correctionScriptService.js:142-143 | the kept lines are exactly those missing in Snowflake that have an OData row |
| CorrectionScript.InsertCandidatesOrder | backend/src/services/correctionScriptService.js:142-143 | the filter keeps the lines' order |
| CorrectionScript.InsertStatements | backend/src/services/correctionScriptService.js:141-182 | one insert statement per candidate line, in order, built from that line's payload |
| CorrectionScript.InsertStatementKey | backend/src/services/correctionScriptService.js:145-166 | an insert offers a rollback iff the built key has something besides hyphens and blanks |
| CorrectionScript.InsertKeyRollback | backend/src/services/correctionScriptService.js:146-166 | the same, for any payload stamped with its own key |
| CorrectionScript.DiffColumnsMembers | backend/src/services/correctionScriptService.js:221-230 | a column is corrected iff it is processed, not excluded, defined in the target, and not equal to the current value under the column-aware comparison |
| CorrectionScript.UpdateClauses | backend/src/services/correctionScriptService.js:221-230 | the loop gives the corrected columns, the SET clauses with target values and the rollback clauses with current values, position by position |
| CorrectionScript.UpdateStatementFor | backend/src/services/correctionScriptService.js:187-273 | the per-line step computes `UpdateFor` |
| CorrectionScript.UpdateStatementsOver | backend/src/services/correctionScriptService.js:184-277 | the loop collects `UpdateFor` over the lines, in order |
| CorrectionScript.BuildUpdateStatements | backend/src/services/correctionScriptService.js:184-277 | the same over the 88 processed columns |
| CorrectionScript.UpdateAgainstShape | backend/src/services/correctionScriptService.js:202-273 | a key mismatch gives a non-actionable PK_MISMATCH with no columns and no rollback; otherwise an update is actionable and lists the corrected columns; no statement iff keys agree and nothing needs correcting |
| CorrectionScript.UpdateForShape | backend/src/services/correctionScriptService.js:187-273 | lines lacking a side, an OData row or a current key give nothing; otherwise as above, against the target payload |
| CorrectionScript.NoOpSuppressed | backend/src/services/correctionScriptService.js:232 | a line whose key agrees and whose defined target values all equal the current ones yields no statement |
| QueryLog.FilterText | backend/src/services/queryLogService.js:84-97 | a filter takes part only when its value is truthy, and then its trimmed text is non-empty |
| QueryLog.LogFilterClauseShape | backend/src/services/queryLogService.js:80-101 | one bind per clause, at most three; the WHERE text is empty iff no filter takes part; the salesId bind is `%text%` and comes first; the kind bind comes last |
| QueryLog.BuildLogFilterClause | backend/src/services/queryLogService.js:80-101 | the step-by-step push of clauses and binds computes `LogFilterClause` |
| QueryLog.SanitizePagination | backend/src/services/queryLogService.js:103-109 | the limit is clamped to 1..200 and defaults to 50; the offset is at least 0 and defaults to 0 |
| QueryLog.SanitizeNumeralLimit | backend/src/services/queryLogService.js:104-106 | a limit sent as the numeral of any n in 1..200 is kept as n |
| QueryLog.NormalizeLogRowFields | backend/src/services/queryLogService.js:66-78 | a normalised row has exactly the eleven camel-case fields, in order; each holds its column's value, or null when that is null or missing |
| QueryLog.LogBindsShape | backend/src/services/queryLogService.js:125-136 | there are nine binds; actionType defaults to 'sql'; the executor falls back through metadata and the environment to 'ui' and is never null; entryId falls back to the preview key; without metadata the metadata binds are null |
| QueryLog.QueryLogService.constructor | backend/src/services/queryLogService.js:18 | the service starts with the log table not yet ensured and no query issued |
| QueryLog.QueryLogService.EnsureLogTableExists | backend/src/services/queryLogService.js:51-55 | CREATE TABLE is issued only the first time; afterwards the flag is set |
| QueryLog.QueryLogService.LogQueryExecution | backend/src/services/queryLogService.js:111-139 | without executed SQL nothing is issued; otherwise the table is ensured, then one INSERT is issued with the nine binds |
| QueryLog.QueryLogService.FetchQueryLogs | backend/src/services/queryLogService.js:141-157 | the table is ensured, then the listing query is issued with the filter clause and sanitised paging; every returned row is normalised |
| QueryLog.QueryLogService.CountQueryLogs | backend/src/services/queryLogService.js:159-165 | the table is ensured, then the COUNT query is issued; the total is `Number` of the first row's TOTAL, or 0 |
| QueryLog.QueryLogService.FetchLogById | backend/src/services/queryLogService.js:167-174 | an id that is not a positive integer returns null and issues nothing; otherwise the lookup is issued and the first row is returned normalised |
| QueryLog.QueryLogService.LookupById | backend/src/services/queryLogService.js:170-173 | the lookup step: the table is ensured, the query is issued by id, and the first row is returned |
| QueryLog.EnsureTwice | backend/src/services/queryLogService.js:51-55 | ensuring the table twice issues at most one CREATE |
| MapProcessed.NormalizeKey | backend/scripts/mapProcessedSalesLine.mjs:7 | the script's normal form holds only ASCII digits and upper-case letters |
| MapProcessed.NormalizeKeyIdempotent | backend/scripts/mapProcessedSalesLine.mjs:7 | normalising twice is normalising once |
| MapProcessed.NormalizeKeyAgreesOnAscii | backend/scripts/mapProcessedSalesLine.mjs:7 | on ASCII names, the script (upper-case, then filter) and the key builder (filter, then upper-case) normalise alike |
| MapProcessed.SharpSKeptOnlyByScript | backend/scripts/mapProcessedSalesLine.mjs:7 | they disagree on 'ß': the script keeps it as "SS", the key builder drops it |
| MapProcessed.Shorten | backend/scripts/mapProcessedSalesLine.mjs:18-19 | text of up to 80 characters is kept; longer text becomes its first 77 characters plus "..." |
| MapProcessed.SampleValueShape | backend/scripts/mapProcessedSalesLine.mjs:9-20 | a sample is null iff the value is nullish; an object samples as its JSON text, or "[object]" when that fails; anything else as its shortened text |
| MapProcessed.CollectDomain | backend/scripts/mapProcessedSalesLine.mjs:26-40 | the collected names are exactly the names met, each once |
| MapProcessed.CollectSamples | backend/scripts/mapProcessedSalesLine.mjs:26-40 | each name keeps the sample of its first occurrence |
| MapProcessed.CollectOrder | backend/scripts/mapProcessedSalesLine.mjs:26-40 | names are listed in the order of their first occurrences |
| MapProcessed.CollectRow | backend/scripts/mapProcessedSalesLine.mjs:27-31 | the inner `forEach` over one row extends the collection by that row's entries |
| MapProcessed.CollectKeys | backend/scripts/mapProcessedSalesLine.mjs:26-40 | the nested loops collect over all rows' entries in sequence |
| MapProcessed.SnowIndexDomain | backend/scripts/mapProcessedSalesLine.mjs:42-45 | the index holds exactly the normal forms of the Snowflake names, each mapped to a name with that normal form |
| MapProcessed.SnowIndexLastWins | backend/scripts/mapProcessedSalesLine.mjs:42-45 | the last name with a given normal form is the one indexed |
| MapProcessed.EarlierNameShadowed | backend/scripts/mapProcessedSalesLine.mjs:42-45 | an earlier name that shares its normal form with a later one is shadowed |
| MapProcessed.EarlierNameNeverIndexed | backend/scripts/mapProcessedSalesLine.mjs:42-45 | such a shadowed name is never an index value |
| MapProcessed.BuildSnowIndex | backend/scripts/mapProcessedSalesLine.mjs:42-45 | the loop computes the last-wins index |
| MapProcessed.MatchedOfMembers | backend/scripts/mapProcessedSalesLine.mjs:48-53 | the matched set holds exactly the Snowflake names that some OData name matched |
| MapProcessed.OnlyOfMembers | backend/scripts/mapProcessedSalesLine.mjs:62-67 | every listed Snowflake-only field is an unmatched Snowflake name with its sample, and every unmatched name is listed |
| MapProcessed.MapKey | backend/scripts/mapProcessedSalesLine.mjs:50-59 | one OData name yields its mapping, and the matched name when it is non-empty |
| MapProcessed.BuildMappings | backend/scripts/mapProcessedSalesLine.mjs:47-60 | the loop yields one mapping per OData name, in order, and the set of matched Snowflake names |
| MapProcessed.BuildSnowflakeOnly | backend/scripts/mapProcessedSalesLine.mjs:62-67 | the loop keeps the unmatched Snowflake names in order |
| MapProcessed.AlignFields | backend/scripts/mapProcessedSalesLine.mjs:22-70 | the whole alignment computes the `Align` specification |
| MapProcessed.OdataFieldsAreFirstSeen | backend/scripts/mapProcessedSalesLine.mjs:50-60 | the mappings list the OData names in first-seen order |
| MapProcessed.MappingPerOdataField | backend/scripts/mapProcessedSalesLine.mjs:26-60 | there is exactly one mapping per distinct OData name, ordered by first occurrence |
| MapProcessed.MappingOdataSample | backend/scripts/mapProcessedSalesLine.mjs:26-60 | each mapping's OData sample is the sample of that name's first value |
| MapProcessed.MappingMatchesNormalForm | backend/scripts/mapProcessedSalesLine.mjs:50-60 | a matched Snowflake field is a non-empty Snowflake name with the same normal form, carrying its first sample; an unmatched one has a null sample, and no non-empty Snowflake name shares the normal form unless an empty name occurs |
| MapProcessed.MatchedFieldsAreMatched | backend/scripts/mapProcessedSalesLine.mjs:50-60 | the Snowflake fields named in mappings are exactly the matched set |
| MapProcessed.SnowflakeNamesPartitioned | backend/scripts/mapProcessedSalesLine.mjs:47-67 | every Snowflake name is either matched or Snowflake-only, never both |
| MapProcessed.SnowflakeOnlyOrderAndSamples | backend/scripts/mapProcessedSalesLine.mjs:62-67 | Snowflake-only fields come in first-seen order with their first samples |
| MapProcessed.OnlyFieldsAreUnmatched | backend/scripts/mapProcessedSalesLine.mjs:62-67 | the Snowflake-only names are the Snowflake names minus the matched ones |
| MapProcessed.EarlierSnowflakeNameIsSnowflakeOnly | backend/scripts/mapProcessedSalesLine.mjs:42-67 | of two Snowflake names with the same normal form, the earlier one always ends up Snowflake-only |
| CsvExport.EscapeText | pages/api/snowflake/lineas.js:30-37 | text without ';', '"' or a newline is written as is; other text is quoted, and un-doubling its quotes gives it back |
| CsvExport.Cells | pages/api/snowflake/lineas.js:29-31 | one cell per header column; a column the row lacks gives an empty cell |
| CsvExport.StreamCsvResponse | pages/api/snowflake/lineas.js:12-43 | the headers are the CSV content type and the attachment disposition; the chunks written are `CsvChunks`, and there are none iff there are no rows |
| CsvExport.EmptyRowsEmptyBody | pages/api/snowflake/lineas.js:16-19 | the body is empty iff there are no rows |
| CsvExport.QuotedRoundTrip | pages/api/snowflake/lineas.js:32-36 | a quoted field reads back as its text, and reading stops at the closing quote |
| CsvExport.PlainRoundTrip | pages/api/snowflake/lineas.js:32-37 | a plain field reads back up to the next ';' or newline |
| CsvExport.FieldRoundTrip | pages/api/snowflake/lineas.js:31-37 | every escaped field reads back as its text |
| CsvExport.RecordRoundTrip | pages/api/snowflake/lineas.js:29-38 | a ';'-joined line of escaped fields reads back as those fields |
| CsvExport.RecordsRoundTrip | pages/api/snowflake/lineas.js:26-39 | newline-terminated lines read back as the records |
| CsvExport.CsvChunksText | pages/api/snowflake/lineas.js:22-40 | the body is the BOM followed by the header line and one line of cells per row |
| CsvExport.CsvRoundTrip | pages/api/snowflake/lineas.js:22-40 | after the BOM, a reader of this dialect recovers the header and every row's cells |
| OData.EnvOr | backend/src/services/odataService.js:12-14 | a set, non-empty variable wins; otherwise the default applies |
| OData.DropTrailingSlash | backend/src/services/odataService.js:11 | one trailing '/' is removed; anything else is kept |
| OData.ConfigDefaults | backend/src/services/odataService.js:6-15 | the entity name and filter field are never empty; unset variables give the documented defaults and an empty base URL |
| OData.EscapeOData | backend/src/services/odataService.js:19-21 | null and undefined escape to ""; un-doubling the apostrophes of the escaped text gives back `String(v)` |
| OData.EscapeODataQuotes | backend/src/services/odataService.js:19-21 | escaping doubles the number of apostrophes |
| OData.LiteralReadsBack | backend/src/services/odataService.js:55-56 | the quoted filter literal reads back as the salesId's text |
| OData.EntityEndpoint | backend/src/services/odataService.js:23-29 | without a base URL the endpoint is the entity name; otherwise it is the base, ending in `/data` (case-insensitively) once, then `/` and the entity name |
| OData.TrailingSlashIgnored | backend/src/services/odataService.js:11-29 | a base URL with or without a trailing '/' gives the same endpoint |
| OData.KeyParts | backend/src/services/odataService.js:82-83 | the key has the filter field literal, plus the data-area literal exactly when one is configured |
| OData.BuildFilterUrl | backend/src/services/odataService.js:55-57 | the URL is the endpoint, '?', and the `$filter` with the escaped literal |
| OData.BuildKeyParts | backend/src/services/odataService.js:81-83 | the pushed key parts are `KeyParts` |
| OData.ODataService.constructor | backend/src/services/odataService.js:6-17 | the service reads its configuration from the environment and starts with an empty token cache and no requests |
| OData.ODataService.ObtainToken | backend/src/services/odataService.js:31-50 | a truthy token valid for more than 60 more seconds is reused with no request; otherwise one token POST is sent and the new token is cached for 3600 seconds |
| OData.ODataService.FetchODataBySalesId | backend/src/services/odataService.js:52-74 | a falsy salesId throws before any request; otherwise a token is obtained and one GET is sent with the filter URL; the body is returned iff the content type includes `application/json` |
| OData.ODataService.PatchODataRecord | backend/src/services/odataService.js:76-96 | a falsy salesId or non-object changes throw before any request; otherwise a token is obtained and one PATCH is sent to the key path |
| OData.FetchTwice | backend/src/services/odataService.js:31-50 | two fetches within the token's lifetime post for a token once and use the same token |
| SnowflakeConfig.StripScheme | backend/src/services/snowflakeService.js:12 | removing the scheme leaves a suffix of the text |
| SnowflakeConfig.StripAccountSuffix | backend/src/services/snowflakeService.js:13 | removing the `.snowflakecomputing.com` suffix leaves a prefix of the text |
| SnowflakeConfig.CutPathAtFirstSlash | backend/src/services/snowflakeService.js:14 | on single-line text, removing `/.*$` cuts at the first '/' |
| SnowflakeConfig.NormalizedAccountHasNoSlash | backend/src/services/snowflakeService.js:9-15 | a normalised single-line account contains no '/' |
| SnowflakeConfig.SchemeDropped | backend/src/services/snowflakeService.js:12 | `http://` and `https://`, spelt in any mix of cases, are removed whole, whatever host follows |
| SnowflakeConfig.SuffixDropped | backend/src/services/snowflakeService.js:13 | the account suffix is removed |
| SnowflakeConfig.AccountFromHostName | backend/src/services/snowflakeService.js:9-15 | a host name, with no scheme or with `http://`/`https://` in any case, normalises to its account |
| SnowflakeConfig.AccountFromBareHost | backend/src/services/snowflakeService.js:9-15 | `account.snowflakecomputing.com` normalises to `account` |
| SnowflakeConfig.AccountFromSchemedHost | backend/src/services/snowflakeService.js:9-15 | `http(s)://account.snowflakecomputing.com`, the scheme in any case, normalises to `account` |
| SnowflakeConfig.SuffixKeptBeforePath | backend/src/services/snowflakeService.js:13-14 | because the suffix is stripped before the path, a host followed by a path keeps its suffix |
| SnowflakeConfig.Settings | backend/src/services/snowflakeService.js:17-25 | the account is the normalised variable (empty when unset), and the role is passed through |
| SnowflakeConfig.MissingOfMembers | backend/src/services/snowflakeService.js:91-100 | the missing list holds exactly the required names that are unset or empty, in the required order |
| SnowflakeConfig.ValidateSnowflakeConfig | backend/src/services/snowflakeService.js:90-109 | validation passes iff nothing is missing; otherwise the error names the missing variables, joined by ", " |
| SnowflakeConfig.ValidationFailsIffUnset | backend/src/services/snowflakeService.js:90-106 | validation fails iff some required variable is unset or empty |
| SnowflakeConfig.RoleNotRequired | backend/src/services/snowflakeService.js:91-98 | setting or removing `SNOWFLAKE_ROLE` never changes the validation result |
| CorrectionPanel.StatementKey | components/DataCorrectionModule.jsx:116-121 | the key starts with the kind (or 'unknown') and '\|', and ends with the SQL with runs of whitespace collapsed and trimmed |
| CorrectionPanel.KeySeparatesKinds | components/DataCorrectionModule.jsx:116-121 | statements with equal keys have the same kind |
| CorrectionPanel.Recorded | components/DataCorrectionModule.jsx:203-208 | a new history entry goes first, and the history keeps at most 20 entries, the newest ones |
| CorrectionPanel.ExecutedInsertCanRollback | components/DataCorrectionModule.jsx:152-168 | once an insert's SQL is recorded, its rollback is allowed |
| CorrectionPanel.SqlRequestAcceptedIff | components/DataCorrectionModule.jsx:170-186 | a SQL request reaches confirmation iff the statement is actionable and its SQL is non-empty and not `-- N/A` |
| CorrectionPanel.RollbackRequestAcceptedIff | components/DataCorrectionModule.jsx:176-185 | a rollback request reaches confirmation iff the statement has a rollback and, for an insert, its SQL was executed before |
| CorrectionPanel.RollbackOfInsertFollowsItsSql | components/DataCorrectionModule.jsx:163-168 | an accepted insert rollback has a history entry executing that insert's SQL |
| CorrectionPanel.PlaceholderInsertPassesGate | components/DataCorrectionModule.jsx:172-177 | the placeholder insert for an incomplete key counts as actionable, so its comment-only SQL reaches confirmation, while its rollback is unavailable |
| CorrectionPanel.MismatchCommentNotExecutable | components/DataCorrectionModule.jsx:172-175 | the PK_MISMATCH comment is not actionable and its execution is refused |
| CorrectionPanel.ActionableUpdates | components/DataCorrectionModule.jsx:143 | exactly the updates not marked non-actionable are kept, each as often as it occurs; the result is shorter by the number of non-actionable updates |
| CorrectionPanel.StatsOf | components/DataCorrectionModule.jsx:143-144 | without corrections both counts are 0; otherwise every insert is counted, and the update count is the number of updates minus those marked non-actionable |
| CorrectionPanel.AllActionableKept | components/DataCorrectionModule.jsx:143-144 | when every update is actionable, the filter keeps them all |
| CorrectionPanel.Panel.constructor | components/DataCorrectionModule.jsx:146-150 | the panel starts with nothing pending, not executing, an empty history and the guard clear |
| CorrectionPanel.Panel.RequestExecution | components/DataCorrectionModule.jsx:170-186 | the request's outcome follows the gates in order; only an accepted request becomes pending; history and guard are unchanged |
| CorrectionPanel.Panel.StartPendingAction | components/DataCorrectionModule.jsx:188-198 | with nothing pending or the guard set, nothing happens; empty SQL clears the pending action; otherwise the guard is set and the chosen SQL is sent with its rollback |
| CorrectionPanel.Panel.FinishPendingAction | components/DataCorrectionModule.jsx:199-216 | settling clears the guard, executing and pending; only a success records the statement in the history |
| CorrectionPanel.DoubleConfirm | components/DataCorrectionModule.jsx:189-198 | of two confirmations before the first settles, only the first sends a request |
| LogView.ParseMetadata | components/QueryLogModule.jsx:54-66 | falsy metadata reads as {}; an object without `value` is kept; an object-typed `value` is unwrapped (null to {}); text is parsed as JSON, or gives {} when parsing fails; numbers and booleans read as {} |
| LogView.ParseMetadataUnwraps | components/QueryLogModule.jsx:57-58 | a non-object `value` is parsed again: non-empty text as JSON, anything else as {} |
| LogView.MetadataNullOnlyFromText | components/QueryLogModule.jsx:54-66 | metadata can be null only when some text parses to JSON null |
| LogView.ToNumeric | components/QueryLogModule.jsx:81-85 | a number is kept; text converts by `Number`; undefined and objects give nothing; null gives 0, as `Number(null)` does |
| LogView.DescribeColumns | components/QueryLogModule.jsx:76-79 | no text for a missing or empty list; one column is named; several are counted and listed, joined by ", " |
| LogView.LineText | components/QueryLogModule.jsx:69 | there is a line text iff there is an entry label or a finite line number, and it starts with "la línea " |
| LogView.TargetLabelCases | components/QueryLogModule.jsx:68-74 | the label names a line iff there is a label or a line number, leads with the entry label when there is one, mentions the order when there is a salesId, and otherwise falls back to 'los datos seleccionados' |
| LogView.UpperCaseInsertIsInsert | components/QueryLogModule.jsx:91-104 | a kind logged as 'INSERT' is described as an insert |
| LogView.BuildLogDescription | components/QueryLogModule.jsx:87-106 | no log gives no description; metadata that parses to null makes the description throw; otherwise it succeeds iff the chosen kind is text, and then it is the sentence for the log's parts |
| LogView.DescriptionPrecedence | components/QueryLogModule.jsx:99-105 | the sentence follows the precedence rollback-from-log, rollback, insert, then update-with-columns or manual SQL |
| LogView.LogDescriptionPrecedence | components/QueryLogModule.jsx:87-106 | a log card's description opens with the text of the first branch that applies: rollback from the log, manual rollback, insert, then columns or manual SQL |
| LogView.LogOffersPanelRollback | components/QueryLogModule.jsx:245 | the log offers a rollback for any trimmed text that does not start with `-- N/A`; it also offers one for `-- N/A;`, which the panel refuses |
| LogView.WindowOf | components/QueryLogModule.jsx:164-166 | the first row is 0 iff there are no rows, and otherwise the row after the offset; the last row is the smaller of the page end and the total; there is a next page iff the page ends before the total |
| LogView.PagingCoversRows | components/QueryLogModule.jsx:164-171 | every row k falls in the window of page (k-1)/25, which shows a full page or the remainder, and all earlier pages have a next page |
| LogView.QueryParams | components/QueryLogModule.jsx:121-126 | limit 25 and offset page×25; the trimmed salesId is sent iff it is not blank; the action type iff it is non-empty |
| LogView.LogList.constructor | components/QueryLogModule.jsx:111-119 | empty filters, page 0, no pending rollback, guard and submitting flag clear |
| LogView.LogList.ApplyFilters | components/QueryLogModule.jsx:168 | the form filters become the applied filters and the page resets to 0 |
| LogView.LogList.ClearFilters | components/QueryLogModule.jsx:169 | both filter sets are emptied and the page resets to 0 |
| LogView.LogList.PrevPage | components/QueryLogModule.jsx:170 | the page goes back one, never below 0 |
| LogView.LogList.NextPage | components/QueryLogModule.jsx:171 | the page advances only when there is a next page |
| LogView.LogList.ConfirmRollback | components/QueryLogModule.jsx:153-158 | with nothing pending, the mutation loading or the guard set, nothing is sent; otherwise the pending log's rollback is sent and the guard and submitting flag are set |
| LogView.LogList.SettleRollback | components/QueryLogModule.jsx:144-150 | settling clears the guard and the submitting flag; only a success clears the pending rollback |
| LineDownload.ConfigFor | components/LineDownloadModule.jsx:96 | a known source selects its own configuration; any other name falls back to the view's |
| LineDownload.SourcesWellFormed | components/LineDownloadModule.jsx:51-93 | both sources list distinct filter names, none of them reserved, and include their date-range fields |
| LineDownload.InitialFiltersShape | components/LineDownloadModule.jsx:95-103 | a fresh form holds the source id, the previous limit (null or undefined become ""), every filter blank and the mode 'non-empty', in that key order |
| LineDownload.BuildInitialFilters | components/LineDownloadModule.jsx:95-103 | the step-by-step form building computes `InitialFilters` |
| LineDownload.WithLimit | components/LineDownloadModule.jsx:106-109 | the request starts with the source id, plus the limit only when it is truthy and not blank |
| LineDownload.CopiedFilterValues | components/LineDownloadModule.jsx:110-115 | each filter is sent iff its value is non-null and not blank, unchanged |
| LineDownload.CopiedKeys | components/LineDownloadModule.jsx:105-115 | only the source, the limit and the configured filters are sent |
| LineDownload.CopiedFixed | components/LineDownloadModule.jsx:105-115 | copying the filters never overwrites the source or limit, and never sets the sales-id flag |
| LineDownload.SalesIdFlag | components/LineDownloadModule.jsx:116-122 | in 'non-empty' mode the salesId filter is dropped and the flag is 'true'; otherwise the flag is 'false'; nothing else changes |
| LineDownload.RequestParamsShape | components/LineDownloadModule.jsx:105-124 | the request holds the source, the given limit, the given filters, the salesId only in manual mode, and the flag; no other keys |
| LineDownload.BuildRequestParams | components/LineDownloadModule.jsx:105-124 | the loop over the filters computes `RequestParams` |
| LineDownload.DateRangeValid | components/LineDownloadModule.jsx:261-279 | the form is rejected iff both dates are set and parse and 'from' is after 'to' |
| LineDownload.FreshFormValid | components/LineDownloadModule.jsx:261-279 | a freshly built form always validates |
| LineDownload.PendingBeforeFirstSearch | components/LineDownloadModule.jsx:157-169 | before the first search there are always pending changes, and the request names the current source |
| LineDownload.RenderedRows | components/LineDownloadModule.jsx:338-339 | at most 750 rows are rendered, and they are the first ones |
| LineDownloadPage.LinePage.constructor | components/LineDownloadModule.jsx:153-155 | the page starts with the view's fresh form, nothing applied and all-columns off |
| LineDownloadPage.LinePage.SourceChange | components/LineDownloadModule.jsx:241-245 | changing source rebuilds the form for the new source, keeps the limit, clears the applied request and turns all-columns off |
| LineDownloadPage.LinePage.FilterChange | components/LineDownloadModule.jsx:247-250 | one field takes the typed value (nullish becomes ""); every other field is kept |
| LineDownloadPage.LinePage.SalesIdModeChange | components/LineDownloadModule.jsx:252-259 | the mode is set (nullish becomes 'non-empty'); the salesId is kept only in manual mode and blanked otherwise |
| LineDownloadPage.LinePage.Search | components/LineDownloadModule.jsx:296-305 | a search applies the request iff the dates validate and something changed or nothing was applied yet; afterwards nothing is pending |
| LineDownloadPage.LinePage.SetShowAllColumns | components/LineDownloadModule.jsx:478 | the checkbox sets all-columns; the filters are untouched |
| LineDownloadPage.LinePage.ResetFilters | components/LineDownloadModule.jsx:315-317 | resetting rebuilds the form for the same source and limit; the applied request is kept |
| LineDownloadPage.ChangeSourceThenValidate | components/LineDownloadModule.jsx:241-279 | right after a source change the form validates and nothing is applied |
| SnowflakeView.LexLessIsValueLess | components/SnowflakeModule.jsx:103 | for digit strings of the same shape, JavaScript's string `<` agrees with numeric `<` on the digits |
| SnowflakeView.IsoDatesCompareByValue | components/SnowflakeModule.jsx:103 | two YYYY-MM-DD strings compare as strings exactly as their dates compare by value |
| SnowflakeView.ApplyOutcomeOf | components/SnowflakeModule.jsx:91-116 | a range is applied iff both dates match YYYY-MM-DD and 'from' is not after 'to'; it is refused as malformed iff either date does not match |
| SnowflakeView.AppliedRangeIsOrdered | components/SnowflakeModule.jsx:103-115 | an applied range has 'from' no later than 'to' as dates |
| SnowflakeView.DateFilters.constructor | components/SnowflakeModule.jsx:73-80 | both the shown and the applied range start from 2020-01-01 to yesterday |
| SnowflakeView.DateFilters.ApplyDisabled | components/SnowflakeModule.jsx:124 | the Apply button is disabled iff the shown range equals the applied one |
| SnowflakeView.DateFilters.DateInputChange | components/SnowflakeModule.jsx:86-89 | typing changes one bound of the shown range only; the applied range is kept |
| SnowflakeView.DateFilters.Apply | components/SnowflakeModule.jsx:91-116 | a valid range becomes the applied one (and Apply is disabled afterwards); an invalid one leaves both ranges as they were |
| SnowflakeView.DateFilters.Reset | components/SnowflakeModule.jsx:118-122 | both ranges go back to the defaults, so Apply is disabled |
| SnowflakeView.MismatchSummaryOf | components/SnowflakeModule.jsx:206-208 | there is no summary iff there are no rows |
| SnowflakeView.CountsPartitionRows | components/SnowflakeModule.jsx:210-212 | base-only, view-only and found-on-both rows together are all the rows |
| SnowflakeView.SummaryCounts | components/SnowflakeModule.jsx:210-212 | the summary's three counts add up to the row count, and the dual count is the rows found on both sides, so it is never negative |
| SnowflakeView.WorstByIsFirstLargest | components/SnowflakeModule.jsx:213-216 | the reduction returns the first row whose measure is largest |
| SnowflakeView.SumByDefined | components/SnowflakeModule.jsx:209 | a sum of non-negative measures is defined iff every measure is, and then it is non-negative |
| SnowflakeView.SummaryWorstAndTotal | components/SnowflakeModule.jsx:209-217 | when every row's amount is a number the total is non-negative and the worst row is the first with the largest absolute difference |

## Left out
- Network and database I/O (the OData HTTP calls, the Snowflake driver, `fetch` from the browser) and their concurrency (`Promise.all`) are not modelled. The rows they return, the token response, the response content type and body, the clock (`now`, `yesterday`) and the environment variables are parameters of the operations that use them.
- JSON parsing and serialisation and calendar-date parsing and rendering are runtime services. They are parameters (`parseJson`, `stringify`, `parseDate`); a `Date` value carries its own renderings. The `catch` of the safe stringifier is folded into the `stringify` parameter.
- Numbers are exact reals. IEEE doubles are not modelled: no NaN, no infinities, no rounding or overflow. A result that the source guards with `Number.isFinite` is therefore always finite here. `toFixed(2)` in the issue texts is a parameter (`fixed2`).
- Locale formatting (`toLocaleString`, `Intl`), toasts, rendering, scrolling, the clipboard and the spreadsheet export of the UI are presentation only and are left out.
- LineDownload.HasPendingChanges compares the two parameter records field by field, in order, where the source compares their `JSON.stringify` texts. The two agree as long as serialisation is injective on these flat string records.
- The lookup of a source in `SOURCE_CONFIG` does not model names inherited from `Object.prototype` (such as `toString`). They cannot come from the source selector.
- `canalSummary` and the other summaries of the Snowflake page besides `mismatchSummary`, the CSV download URL with `window.open`, and the refresh/refetch handlers are not modelled. They only format or re-issue queries.
- The request metadata beyond the query, the rollback text and the action type, plus the history entry's id and execution timestamp, are left out. So are the report's `generatedAt` and `context` fields.
- `streamLargeResponse` and the API handler around the CSV writer (method checks, the query, headers) are left out. Only the CSV serialisation is modelled.
- `buildLineDownloadQuery` is not part of this model.
- backend/src/constants/tables.js is not part of this model; the processed-lines table name is a configuration parameter.
- OData.ODataService.PatchODataRecord returns the key path the PATCH is sent to (the request itself is recorded in `sent`), not the HTTP response body.
- CsvExport.CsvRoundTrip: requires a non-empty header whose names need no quoting, because the source writes the header names unescaped. A header containing `;`, `"` or a newline cannot be read back.
- MismatchAnalysis.AnalysisCounts relates the summary's line counts to the sizes of the two maps. The maps themselves are characterised by the indexing lemmas listed above.
- LogView.ToNumeric gives 0 for `null`, as the code does (`Number(null)` is 0). A description of the function as "everything else gives null" would not hold for `null`.
- CorrectionScript.InsertForShape keeps the placeholder insert exactly as the code builds it: no `actionable` field, SQL text that is only a comment, and a `null` key in the preview. CorrectionPanel.PlaceholderInsertPassesGate states the consequence: the execution gate lets it through.
- MismatchAnalysis.NormalizeStringFirst: the upper-casing is `JsString.ToUpper`, which maps only ASCII, Latin-1 and a few special letters. Two texts that differ only in the case of other letters (Central-European, Greek, Cyrillic, ligatures) normalise differently here, where `toUpperCase` makes them equal.
- JsString.ToUpper: upper-casing outside ASCII and Latin-1 (plus ß, ÿ, µ, ı, ſ) is not modelled; such characters are returned unchanged. This carries over to MismatchAnalysis.NormalizeString (the invoice and canal comparisons), CorrectionScript.NormalizeStringValue and CorrectionScript.ValuesEqual (an UPDATE clause for a text column differing only in the case of such letters is emitted here and suppressed by the program), and MapProcessed.NormalizeKey (a key such as "ﬁeld" loses letters here). SalesLinePk.NormalizeKey is unaffected, since it keeps ASCII only.
- JsString.ToLower: lower-casing outside ASCII and Latin-1 (plus the Kelvin sign and İ) is not modelled either. It only decides whether a statement kind reads "insert" (LogView.KindOf), and no other letter lower-cases to an ASCII one.
- CorrectionScript.Prefix10, CorrectionScript.NormalizeDateText and MapProcessed.Shorten count lengths and slice in characters (code points), not in UTF-16 code units as `.length` and `.slice` do. Text containing characters outside the Basic Multilingual Plane is cut at a different place, and the program can split a surrogate pair where the model cannot.
- JsValue: records keep every key in insertion order. JavaScript lists integer-like keys ("0", "10") first, in ascending order; none of the column names the core handles is integer-like.
- MapProcessed.NormalizeKeyAgreesOnAscii: the script's and the key builder's key normalisers agree only on ASCII keys. MapProcessed.SharpSKeptOnlyByScript exhibits a key on which they differ.
