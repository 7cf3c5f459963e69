# Data Alchemist — a Dafny model of its core

Data Alchemist is a Next.js application. It ingests client, worker and task
spreadsheets, shows and edits them in a grid, keeps a list of business rules
in a JSON file behind a small REST endpoint, drafts rules with an AI
completion service, and scores data quality on a validation page.

This project models the deterministic logic of that application and proves
properties about it:

- how a file name selects a parser, and how a sheet's header row and data rows
  become records (`FileParser`);
- the row schemas for clients, workers and tasks (`Schemas`);
- the rule record with its closed enumerations and the three default rules
  (`Rules`);
- the rule store's GET, POST, PUT and DELETE on the list in `rules.json`
  (`RulesApi`, class `RuleStore`);
- the rule editor page: newline serialisation of conditions and actions, the
  create guard, the edit/save merge, AI-draft defaulting and the summary
  counts (`RulesPage`, class `Page`);
- the AI endpoint's guards, its first-`{`-to-last-`}` extraction and its
  answers (`AiRoute`);
- the stub validation run, the weighted quality score, its three breakdowns
  and its label (`Validate`);
- the grid's columns, its copy-and-update cell commit and its edit-mode
  transitions (`DataGrid`, class `Grid`);
- the export page's option toggle and format lookup (`Export`).

Three helper modules hold shared vocabulary:

- `Wrappers` defines Option and Result.
- `Text` defines split on one character, join on a string, ASCII
  lower-casing, decimal rendering and character search.
- `Records` defines JavaScript cell values, truthiness, and objects as
  insertion-ordered lists of entries.

Things the application gets from outside are parameters of the model:

- the file system content;
- the CSV and spreadsheet libraries' output;
- `JSON.parse`;
- the completion service's reply;
- the timestamp used as a new rule's id;
- the API key.

The score arithmetic uses exact reals. `Math.round(x)` is modelled as
Floor(x + 1/2), which is what it computes for the non-negative values that
occur.

## Model

| member | source | states |
|---|---|---|
| Text.Split | src/app/rules/page.tsx:35-36 | `split('\n')` gives at least one piece, and no piece holds the separator |
| Text.Join | src/app/rules/page.tsx:52-53 | `join(sep)`: definition; facts in JoinSplit, SplitJoin and JoinEmpty |
| Text.JoinSplit | src/app/rules/page.tsx:35-53 | joining the pieces of a split gives back the text, the empty text included |
| Text.SplitWithoutSeparator | src/app/rules/page.tsx:35 | a text without the separator splits into itself alone |
| Text.SplitAtSeparator | src/app/rules/page.tsx:35 | the text before the first separator is the first piece |
| Text.SplitJoin | src/app/rules/page.tsx:35-53 | splitting the join of a non-empty list of separator-free parts gives the parts back |
| Text.JoinEmpty | src/app/rules/page.tsx:52 | the join is empty exactly for no parts or one empty part |
| Text.Lower | src/lib/data-processing/fileParser.ts:13 | lower-casing keeps the length |
| Text.FirstIndexOf | src/lib/data-processing/fileParser.ts:13 | none iff the character does not occur; otherwise its first position |
| Text.LastIndexOf | src/lib/data-processing/fileParser.ts:13 | none iff the character does not occur; otherwise its last position |
| Records.Keys | src/components/data-grid/DataGrid.tsx:31 | one property name per entry |
| Records.Get | src/components/data-grid/DataGrid.tsx:35 | reading a property: definition; facts in GetAbsent and SetGet |
| Records.Set | src/lib/data-processing/fileParser.ts:83 | assigning a property: definition; facts in SetGet, SetKeys, SetWellFormed and SetUnchanged |
| Records.CellString | src/components/data-grid/DataGrid.tsx:42 | `String(value)`: definition; text is kept as it is (facts in UntouchedTextEdit and UntouchedEditTurnsToText) |
| Records.GetAbsent | src/lib/data-processing/fileParser.ts:82 | reading a property the object does not have gives undefined |
| Records.SetGet | src/lib/data-processing/fileParser.ts:81-83 | after an assignment the property reads the new value, and every other property reads as before |
| Records.SetKeys | src/lib/data-processing/fileParser.ts:81-83 | an assignment to an existing property keeps the property order; a new property goes last |
| Records.SetWellFormed | src/lib/data-processing/fileParser.ts:81-83 | an assignment never creates a duplicate property |
| Records.SetUnchanged | src/components/data-grid/DataGrid.tsx:46 | assigning a property its own value leaves the object equal |
| Records.PrependWellFormed | src/lib/data-processing/fileParser.ts:81-83 | an entry whose property is new can go in front without creating a duplicate |
| FileParser.AfterLastDot | src/lib/data-processing/fileParser.ts:13 | the extension is the longest dot-free tail of the name, preceded by a dot whenever it is shorter than the name |
| FileParser.Extension | src/lib/data-processing/fileParser.ts:13 | `split('.').pop()?.toLowerCase()`: definition; facts in AfterLastDotLower, NoDotWholeName and ExtensionOf |
| FileParser.Dispatch | src/lib/data-processing/fileParser.ts:15-21 | the route an extension selects: definition; facts in ParseFile, DispatchIgnoresCase and the three example lemmas |
| FileParser.DispatchIgnoresCase | src/lib/data-processing/fileParser.ts:13-21 | a name and its lower-cased form take the same path |
| FileParser.AfterLastDotLower | src/lib/data-processing/fileParser.ts:13 | lower-casing commutes with taking the text after the last dot |
| FileParser.NoDotWholeName | src/lib/data-processing/fileParser.ts:13 | a name without a dot is its own extension |
| FileParser.AfterLastDotOf | src/lib/data-processing/fileParser.ts:13 | only the text after the last dot is the extension, whatever dots the stem holds |
| FileParser.ExtensionOf | src/lib/data-processing/fileParser.ts:13 | the extension of stem.ext is ext lower-cased |
| FileParser.UpperCaseExample | src/lib/data-processing/fileParser.ts:13-16 | "DATA.CSV" takes the CSV path |
| FileParser.NoDotExample | src/lib/data-processing/fileParser.ts:13-16 | a bare "csv" takes the CSV path |
| FileParser.DispatchLastDotExamples | src/lib/data-processing/fileParser.ts:13-21 | "report.v2.xls" takes the spreadsheet path and "clients.csv.bak" is unsupported |
| FileParser.ParseCsv | src/lib/data-processing/fileParser.ts:24-50 | any reported error rejects, and a parser failure rejects with its message; otherwise the rows come through with the header fields, or [] when those are absent, tagged csv |
| FileParser.HeaderRow | src/lib/data-processing/fileParser.ts:75 | one property name per header cell |
| FileParser.CellFor | src/lib/data-processing/fileParser.ts:82 | a truthy cell is kept; a missing, zero, false or empty cell becomes "" |
| FileParser.Fill | src/lib/data-processing/fileParser.ts:80-84 | the object after the first n headers are assigned: definition; facts in FillWellFormed, FillKeys, FillValue and FillKeysInOrder |
| FileParser.RecordOf | src/lib/data-processing/fileParser.ts:79-85 | the record one data row becomes: definition; facts in RecordOfValue, RowToRecord and ColumnsOfParsedSheet |
| FileParser.RowToRecord | src/lib/data-processing/fileParser.ts:80-84 | the loop that assigns header by header builds the record RecordOf describes |
| FileParser.FillWellFormed | src/lib/data-processing/fileParser.ts:80-84 | a built record never lists a property twice, even with repeated headers |
| FileParser.FillKeys | src/lib/data-processing/fileParser.ts:80-84 | a record's properties are exactly the headers |
| FileParser.FillValue | src/lib/data-processing/fileParser.ts:81-83 | a header's value comes from its last column, so with duplicate headers the later column wins |
| FileParser.RecordOfValue | src/lib/data-processing/fileParser.ts:81-83 | each header maps to its last column's cell when that cell is truthy, and to "" otherwise |
| FileParser.FillKeysInOrder | src/lib/data-processing/fileParser.ts:80-84 | with distinct headers the record's properties are the headers in header order |
| FileParser.XlsxOutcome | src/lib/data-processing/fileParser.ts:52-104 | a read error or a thrown error rejects with its message, and an empty sheet is rejected; otherwise the first row is the headers, there are rows − 1 records, each built from its row in order, tagged xlsx |
| FileParser.RowsToRecords | src/lib/data-processing/fileParser.ts:79-85 | one record per data row, in order |
| FileParser.ParseXlsx | src/lib/data-processing/fileParser.ts:52-104 | the method settles exactly as XlsxOutcome |
| FileParser.ParseFile | src/lib/data-processing/fileParser.ts:11-22 | an unsupported extension is refused with the source's message; csv goes to the CSV parser; xlsx/xls go to the spreadsheet parser; the type tag of a result names the path taken |
| Schemas.Issues | src/types/schemas.ts:3-30 | no issues exactly when the record conforms; each listed key belongs to a field that fails, and every failing field is listed |
| Schemas.ClientConformance | src/types/schemas.ts:3-10 | against the ClientSchema constant, a client conforms iff its id and name are non-empty text, its priority is one of 1, 2, 3, 4, 5, its task ids are text, and its group tag and attributes are text or absent |
| Schemas.WorkerConformance | src/types/schemas.ts:12-20 | against the WorkerSchema constant, a worker conforms iff its id and name are non-empty text, skills and slots are text, its load is a whole number ≥ 1, and its group and level are text or absent |
| Schemas.TaskConformance | src/types/schemas.ts:22-30 | against the TaskSchema constant, a task conforms iff its id and name are non-empty text, its category is text or absent, duration and concurrency are whole numbers ≥ 1, and skills and phases are text |
| Schemas.SetKeepsConformance | src/types/schemas.ts:3-30 | giving one field of a conforming row a value that meets that field's constraint keeps the row conforming |
| Schemas.NoUpperBound | src/types/schemas.ts:17-29 | any whole Duration, MaxConcurrent or MaxLoadPerPhase ≥ 1 is accepted, however large |
| Schemas.PriorityOutOfRange | src/types/schemas.ts:6 | a priority of 6, 0 or 2.5 makes a client row fail |
| Rules.ParseKind | src/types/rules.ts:5 | a string names a kind only if it is that kind's name, and every other string is refused |
| Rules.ParseStatus | src/types/rules.ts:6 | a string names a status only if it is that status's name, and every other string is refused |
| Rules.ParsePriority | src/types/rules.ts:9 | a string names a priority only if it is that priority's name, and every other string is refused |
| Rules.EnumNamesRoundTrip | src/types/rules.ts:5-9 | parsing a value's name gives the value back |
| Rules.DefaultRulesShape | src/types/rules.ts:12-42 | the DefaultRules constant: three defaults with distinct ids '1', '2', '3'; '1' is high priority with conditions exactly the 1..5 range check; '1' and '2' are active; '3' is a low-priority draft |
| RulesApi.ReadRules | src/app/api/rules/route.ts:8-15 | a missing or unparseable file reads as the empty list |
| RulesApi.FirstIndex | src/app/api/rules/route.ts:37 | none exactly when no rule has the id; otherwise the position of the first rule that has it |
| RulesApi.FindIndex | src/app/api/rules/route.ts:37 | the findIndex loop returns -1 exactly when no rule has the id, and otherwise the first match |
| RulesApi.ReplaceFirst | src/app/api/rules/route.ts:37-43 | no match means nothing to write; otherwise the same length, the first match replaced wholesale, every other position unchanged |
| RulesApi.RemoveId | src/app/api/rules/route.ts:49 | the kept rules are exactly those whose id differs |
| RulesApi.RemoveIdConcat | src/app/api/rules/route.ts:49 | filtering works piecewise, so the survivors keep their order |
| RulesApi.RemoveIdCount | src/app/api/rules/route.ts:49 | the list shrinks by exactly the number of rules with the id, so every duplicate goes |
| RulesApi.RemoveAbsentId | src/app/api/rules/route.ts:49 | deleting an id no rule has leaves the list equal |
| RulesApi.RemoveIdIdempotent | src/app/api/rules/route.ts:49 | deleting twice is deleting once |
| RulesApi.ReplaceKeepsDistinctIds | src/app/api/rules/route.ts:37-41 | a PUT never creates a duplicate id |
| RulesApi.AppendKeepsDistinctIds | src/app/api/rules/route.ts:29 | a POST keeps ids distinct when the new id is not already in use |
| RulesApi.RuleStore.constructor | src/app/api/rules/route.ts:6 | the store starts from the given file |
| RulesApi.RuleStore.Get | src/app/api/rules/route.ts:21-24 | GET answers the list as read |
| RulesApi.RuleStore.Post | src/app/api/rules/route.ts:26-32 | the old list plus exactly one rule at the end, whose id is the timestamp whatever the body said; the file holds the answer |
| RulesApi.RuleStore.Put | src/app/api/rules/route.ts:34-44 | with a match, the replaced list is written and answered; without one, 404 and the file is untouched |
| RulesApi.RuleStore.Delete | src/app/api/rules/route.ts:46-52 | the filtered list is written and answered |
| RulesPage.WithField | src/app/rules/page.tsx:25-28 | the changed input takes the typed value, and every other field and the id stay |
| RulesPage.Lines | src/app/rules/page.tsx:35-36 | absent or empty text gives no lines; other text is split at newlines, and no line holds a newline |
| RulesPage.LinesOfJoin | src/app/rules/page.tsx:35-53 | splitting a joined list gives the list back iff it is not [""] and no element holds a newline |
| RulesPage.JoinOfLines | src/app/rules/page.tsx:35-53 | joining the split lines gives the text back |
| RulesPage.CreateDraft | src/app/rules/page.tsx:30-37 | nothing is sent iff name, type, status or priority is missing or empty; otherwise the form's fields and its split lines |
| RulesPage.EditForm | src/app/rules/page.tsx:48-55 | `handleEdit`'s form: definition; facts in EditSaveRoundTrip and Page.Edit |
| RulesPage.DraftOf | src/app/rules/page.tsx:60-65 | a stored rule written out as a request body: the reference side of EditSaveRoundTrip |
| RulesPage.Merge | src/app/rules/page.tsx:60-65 | for id, name, description, type, status and priority, a field the form holds overrides the selected rule's and an absent one keeps the rule's; the lists always come from the form |
| RulesPage.EditSaveRoundTrip | src/app/rules/page.tsx:48-65 | saving a rule untouched after Edit sends it back unchanged iff its conditions and actions survive the newline round trip |
| RulesPage.EmptyLineIsLost | src/app/rules/page.tsx:52-63 | a rule whose only condition is the empty line loses it on an untouched save |
| RulesPage.OrDefault | src/app/rules/page.tsx:125-129 | a filled field passes through unchanged, and a missing or empty one takes the default |
| RulesPage.AiForm | src/app/rules/page.tsx:124-131 | name and description default to "", type to validation, status to active, priority to medium, lists to empty; filled values pass through even outside the enumerations |
| RulesPage.AiDraftSubmittable | src/app/rules/page.tsx:124-131 | an AI draft passes the create guard iff it came with a name |
| RulesPage.AiStatusOutsideEnumeration | src/app/rules/page.tsx:124-131 | a drafted status that names no rule status passes handleCreate's guard, which would send it as it stands |
| RulesPage.AiEmptyDraftDefaults | src/app/rules/page.tsx:124-131 | an empty draft becomes an active, medium-priority validation rule with no lines |
| RulesPage.AiListsReachDraft | src/app/rules/page.tsx:130-131 | the AI's lists reach the submitted body unchanged when they survive the newline round trip |
| RulesPage.AiErrorText | src/app/rules/page.tsx:135 | the message shown is never empty, and it is the endpoint's message when that has text |
| RulesPage.CountStatus | src/app/rules/page.tsx:179-193 | a status count never exceeds the total |
| RulesPage.CountPriority | src/app/rules/page.tsx:207 | a priority count never exceeds the total |
| RulesPage.StatusCountsPartition | src/app/rules/page.tsx:166-193 | over stored rules, whose status is one of active, inactive and draft, the three status counts add up to the total; a status outside these (see AiStatusOutsideEnumeration) is not covered |
| RulesPage.PriorityCountsPartition | src/app/rules/page.tsx:207 | over stored rules, whose priority is one of low, medium and high, the three priority counts add up to the total |
| RulesPage.DefaultSummary | src/app/rules/page.tsx:166-207 | over the DefaultRules constant the cards would read 3 total, 2 active, 1 draft, 1 high priority; the page itself starts from the endpoint's list and never loads that constant |
| RulesPage.Page.constructor | src/app/rules/page.tsx:7-13 | nothing loaded, nothing selected, the create form closed and empty, no prompt and no error |
| RulesPage.Page.Loaded | src/app/rules/page.tsx:19-23 | the fetched list replaces the rules, and nothing else changes |
| RulesPage.Page.ChangeField | src/app/rules/page.tsx:25-28 | the form becomes WithField of the old form, and nothing else changes |
| RulesPage.Page.OpenCreate | src/app/rules/page.tsx:223 | the create form opens empty |
| RulesPage.Page.Create | src/app/rules/page.tsx:30-46 | sends CreateDraft of the form; on sending, the form is cleared and closed, and otherwise nothing changes |
| RulesPage.Page.Edit | src/app/rules/page.tsx:48-55 | selects the rule and seeds the form with EditForm |
| RulesPage.Page.SaveEdit | src/app/rules/page.tsx:57-74 | nothing happens without a selection; otherwise it sends the merge, whose id is the selected rule's, then clears the selection and the form |
| RulesPage.Page.Delete | src/app/rules/page.tsx:76-84 | sends the id and clears the selection; the form stays |
| RulesPage.Page.ChangePrompt | src/app/rules/page.tsx:411-412 | the prompt text is replaced |
| RulesPage.Page.AiGenerate | src/app/rules/page.tsx:113-142 | a rule fills the form with AiForm and opens it; an error answer shows its message; a failed request shows the fixed message |
| AiRoute.ExtractBlock | src/app/api/ai/route.ts:59-61 | none iff no '{' is followed by a '}'; otherwise exactly the text from the first '{' through the last '}' |
| AiRoute.BlockShape | src/app/api/ai/route.ts:59-61 | the block is a piece of the content that opens with '{' and closes with '}' |
| AiRoute.HandleAiPost | src/app/api/ai/route.ts:4-77 | an empty, missing or non-text prompt is a 400, and only that is; a missing key is a 500; a failed call is a 500 carrying the error; a rule answer comes only from filled content whose block the parser accepted |
| AiRoute.KeyGuardPrecedesCall | src/app/api/ai/route.ts:10-13 | without a key the answer is an error that does not depend on the completion or the parser |
| AiRoute.NoBlockNoRule | src/app/api/ai/route.ts:56-72 | empty content, or content with no '}' after a '{', gives 500 'AI did not return a valid rule.' with the raw content |
| AiRoute.ParseFailureCarriesRaw | src/app/api/ai/route.ts:63-65 | a block the parser rejects gives 500 'Failed to parse AI response.' carrying the raw content |
| AiRoute.ParsedRuleReturnedAsIs | src/app/api/ai/route.ts:69-70 | a parsed block is answered as it stands |
| AiRoute.OnlyBlocksReachParser | src/app/api/ai/route.ts:59-61 | only brace-delimited text reaches the parser |
| Validate.RunValidation | src/app/validate/page.tsx:70-81 | absent or empty records give no results; otherwise there is one passing result per rule, in order, with every other field copied, whatever the rule's status, and details "Checked N records for rule: <name>" |
| Validate.Weight | src/app/validate/page.tsx:106-122 | each result adds between 0 and 1; exactly a pass adds 1 and exactly a failure adds 0 |
| Validate.TotalWeight | src/app/validate/page.tsx:105-122 | the summed weight lies between 0 and the number of results |
| Validate.Round | src/app/validate/page.tsx:123 | `Math.round`: the nearest integer, a half rounding up |
| Validate.Percent | src/app/validate/page.tsx:123 | round(100·k/n), 0 for n = 0: definition; facts in PercentBounds, PercentMonotone and PercentFull |
| Validate.QualityScore | src/app/validate/page.tsx:103-124 | the score is always within 0..100 |
| Validate.CalculateQualityScore | src/app/validate/page.tsx:103-124 | the accumulating loop computes QualityScore, which is within 0..100 |
| Validate.PercentBounds | src/app/validate/page.tsx:123 | a ratio between 0 and 1 rounds to a percentage between 0 and 100 |
| Validate.PercentMonotone | src/app/validate/page.tsx:123 | a larger ratio never rounds to a smaller percentage |
| Validate.TotalWeightAppend | src/app/validate/page.tsx:105-122 | the total of a concatenation is the sum of the totals |
| Validate.RemoveOne | src/app/validate/page.tsx:105-122 | removing one result subtracts exactly its weight |
| Validate.TotalWeightPermutation | src/app/validate/page.tsx:105-122 | the total does not depend on the order of the results |
| Validate.QualityScorePermutation | src/app/validate/page.tsx:103-124 | reordering the results leaves the score alone |
| Validate.CountIn | src/app/validate/page.tsx:170-198 | a filtered count never exceeds the total |
| Validate.CountInMonotone | src/app/validate/page.tsx:311-329 | accepting more statuses never counts fewer results |
| Validate.Completeness | src/app/validate/page.tsx:311-313 | the passing share: definition; facts in BreakdownOrder and StubScores |
| Validate.Accuracy | src/app/validate/page.tsx:319-321 | the not-failed share: definition; facts in BreakdownOrder and StubScores |
| Validate.Consistency | src/app/validate/page.tsx:327-329 | the passed-or-warned share: definition; facts in BreakdownOrder and StubScores |
| Validate.TotalWeightBetweenCounts | src/app/validate/page.tsx:105-122 | the total lies between the pass count and the non-fail count |
| Validate.BreakdownOrder | src/app/validate/page.tsx:311-329 | completeness ≤ consistency ≤ accuracy, and completeness ≤ score ≤ accuracy |
| Validate.TotalWeightUniform | src/app/validate/page.tsx:105-122 | all passing gives a total equal to the count; all failing gives 0 |
| Validate.ScoreExtremes | src/app/validate/page.tsx:123 | all passing scores 100; all failing scores 0 |
| Validate.QualityLabel | src/app/validate/page.tsx:296-300 | the heading: definition; facts in LabelThresholds |
| Validate.QualityAdvice | src/app/validate/page.tsx:303-305 | the sentence under the heading: definition; facts in LabelThresholds |
| Validate.LabelThresholds | src/app/validate/page.tsx:296-305 | Good Quality iff the score is ≥ 80, Fair Quality iff it is in 60..79, Needs Improvement iff it is < 60; the advice matches the label |
| Validate.StatusCountsAddUp | src/app/validate/page.tsx:170-198 | the pass, warning, fail and pending counts add up to the total, and "not failed" counts exactly the rest |
| Validate.CountInAll | src/app/validate/page.tsx:311-329 | a filter that accepts every result's status counts them all |
| Validate.PercentFull | src/app/validate/page.tsx:123 | a full ratio rounds to 100 |
| Validate.StubScores | src/app/validate/page.tsx:70-124 | after the stub run, no results gives 0 everywhere and Needs Improvement; any results give 100 everywhere and Good Quality |
| DataGrid.Columns | src/components/data-grid/DataGrid.tsx:28-31 | no columns for no data; otherwise the first record's properties in order |
| DataGrid.ColumnsDistinct | src/components/data-grid/DataGrid.tsx:28-31 | a well-formed first record gives each column once |
| DataGrid.ColumnsOfParsedSheet | src/components/data-grid/DataGrid.tsx:28-31 | for a parsed sheet with distinct headers and a data row, the columns are the header row |
| DataGrid.WithCell | src/components/data-grid/DataGrid.tsx:45-46 | same length; only the edited row differs; in it the column holds the typed text and every other property keeps its value and place |
| DataGrid.UntouchedTextEdit | src/components/data-grid/DataGrid.tsx:42-46 | committing a text cell without typing leaves the data equal |
| DataGrid.UntouchedEditTurnsToText | src/components/data-grid/DataGrid.tsx:42-46 | committing a non-text cell without typing changes it to text |
| DataGrid.CommitCell | src/components/data-grid/DataGrid.tsx:45-46 | a fresh array holding WithCell of the input, and the input array is left unchanged |
| DataGrid.Grid.constructor | src/components/data-grid/DataGrid.tsx:21-25 | the grid holds the given data with no cell in edit mode |
| DataGrid.Grid.Click | src/components/data-grid/DataGrid.tsx:66 | the clicked cell, and only it, is in edit mode |
| DataGrid.Grid.Blur | src/components/data-grid/DataGrid.tsx:44-49 | with a cell in edit mode, emits the committed copy and leaves edit mode; the given array is untouched |
| DataGrid.Grid.KeyDown | src/components/data-grid/DataGrid.tsx:50-57 | Enter commits like a blur, and does nothing when no cell in range is in edit mode; Escape leaves edit mode and emits nothing |
| DataGrid.Grid.Receive | src/components/data-grid/DataGrid.tsx:17-18 | the parent's new data replaces the old, and edit mode is kept |
| Export.Toggle | src/app/export/page.tsx:60-68 | same length; ids, names and descriptions kept in order; a flag changes iff its option has the id |
| Export.Flip | src/app/export/page.tsx:63-65 | one option as the toggle leaves it: definition; facts in Toggle |
| Export.ToggleTwice | src/app/export/page.tsx:60-68 | toggling the same id twice restores the list |
| Export.ToggleAbsent | src/app/export/page.tsx:60-68 | toggling an absent id changes nothing |
| Export.ToggleCommutes | src/app/export/page.tsx:60-68 | toggles of two ids commute |
| Export.InitialOptionsShape | src/app/export/page.tsx:22-27 | the InitialOptions constant: four options with distinct ids '1'–'4', enabled true, false, true, false |
| Export.ToggleInitialHeaders | src/app/export/page.tsx:60-68 | toggling '1' on the initial list turns headers off and changes nothing else |
| Export.FindFormat | src/app/export/page.tsx:197 | none iff no format has the id; otherwise the first format with that id, as `find` returns it |
| Export.FindOwnFormat | src/app/export/page.tsx:29-58 | with distinct ids, looking a format up by its own id finds it |
| Export.ExportFileName | src/app/export/page.tsx:197 | data_export followed by the found format's extension, or nothing when no format matches |
| Export.FormatsShape | src/app/export/page.tsx:21-58 | the Formats constant: four formats with distinct ids; the initial selection is CSV, giving data_export.csv; xlsx gives data_export.xlsx; an unknown id gives data_export |
| Export.EverySelectionFound | src/app/export/page.tsx:197-202 | every offered format is found by its id and names its own extension |

## Left out

- File system I/O, the `fetch` calls and the completion service are left out. They are replaced by parameters: the stored file, the request body, the completion's outcome, and the answer the page receives.
- `Date.now()` is left out. The new rule's id is a parameter, and the model does not claim ids are unique: `RulesApi.AppendKeepsDistinctIds` assumes the stamp is fresh.
- The parsing libraries are left out: PapaParse, the XLSX reader, `FileReader` and `JSON.parse`. Their results are parameters.
- zod's coercion, its error messages and its stripping of unknown keys are not modelled. Only the stated constraints are.
- The validation page's own file reading is not modelled (src/app/validate/page.tsx:29-66).
- Table sorting, filtering and pagination belong to the table library and are not modelled.
- Presentation is left out: colour and icon switches, the score ring's stroke arithmetic, loading flags, the Cancel buttons and `handleExport`, which only logs.
- Floating point is not modelled. The score is computed in exact reals, so binary rounding artefacts of `Math.round` are not captured.
- BusinessRule: its fields are typed. The store keeps the closed enumerations, so a rule whose type, status or priority lies outside them cannot be stored, although the JavaScript endpoint would store one. The editor page keeps these fields as text, as the page does.
- RulesPage.EditForm: the `Array.isArray` fallback to '' is not modelled, because conditions and actions are always lists here.
- AiRoute.AiRule: the fields are text or lists of text. A drafted field of another JSON type (a number, say) is not modelled.
- AiRoute.HandleAiPost: the prompt is modelled as a cell value. An object or array prompt, which the endpoint also refuses, is not modelled separately.
- AiRoute.HandleAiPost: the completion's content is text or absent. A truthy non-text content makes `content.match` throw inside the inner `try`, which answers 500 "Failed to parse AI response." with the raw content; that case is not modelled.
- RulesPage.Page.Create and RulesPage.Page.SaveEdit: the form's `required` name input and type, status and priority selects (src/app/rules/page.tsx:299-318 and 337-356) stop the browser from submitting an empty name or a value outside the options. That browser check is not modelled; the methods model the handlers' own guards.
- The rule page's disabled Generate button (a prompt that is blank after trimming) is not modelled.
- Text.Lower: lower-cases ASCII letters only, not all of Unicode.
- Records.CellString, used for `String(value)` and for header names, renders a number by its whole part. Fractional header cells are therefore not keyed exactly. The error-message text for non-Error exceptions is likewise given by the caller.
- FileParser.HeaderRow: `ParsedData.headers` holds the header cells converted to property names. The source returns the raw cells; the two differ only for non-text header cells.
- FileParser.RowToRecord: a header row with holes (`forEach` skips them) is not modelled. Every header position is assigned.
- Records: objects are modelled without a prototype. In JavaScript, assigning the property `__proto__` a plain value creates no property, and an inherited name such as `constructor` or `toString` reads a function rather than undefined. Neither is modelled. The members below state facts that are therefore false for those names.
- Records.Get: reads undefined for every name the object does not have, inherited names included.
- Records.Set: assigning `__proto__` adds or updates an entry like any other name.
- Records.GetAbsent: does not hold in JavaScript for inherited names, which read functions.
- Records.SetGet: does not hold in JavaScript for `__proto__`, which still reads the prototype after the assignment.
- Records.SetKeys: does not hold in JavaScript for a new `__proto__`, which is not added.
- FileParser.Fill, FileParser.RecordOf and FileParser.RowToRecord: a `__proto__` header gives an entry, where JavaScript gives no property.
- FileParser.FillKeys: for a `__proto__` header, the record's properties in JavaScript are the headers without that one.
- FileParser.FillValue: a `__proto__` header has no value of its own in JavaScript.
- FileParser.RecordOfValue: the same `__proto__` gap as FillValue.
- FileParser.FillKeysInOrder: the same `__proto__` gap as FillKeys.
- DataGrid.ColumnsOfParsedSheet: a `__proto__` header is not a column in JavaScript.
- Records: JavaScript lists integer-like property names first in `Object.keys`. That ordering is not modelled; properties keep insertion order.
- DataGrid.Grid.KeyDown: whether the browser fires blur when Escape removes the focused input is not modelled. Escape emits nothing.
- RulesApi.RuleStore: each request runs as one step. The handlers await between reading and writing `rules.json`, so concurrent requests can interleave and one of two updates can be lost. That interleaving is not modelled.
- RulesApi.ReadRules: a file holding valid JSON that is not a list (`{}`, `null`) is returned as it stands, and POST, PUT and DELETE then throw. This case is not modelled: a stored file is either missing, unparseable or a list of rules.
- RulesPage.StatusCountsPartition and RulesPage.PriorityCountsPartition hold over the closed enumerations only. The endpoint also stores a rule whose status or priority names none of them (any client that POSTs to the endpoint can send one). Such a rule counts in the total but in no status or priority count.
- DataGrid.Columns: a column's id is its property name. The table library rewrites a key holding '.' and reads it as a nested path; such keys are not modelled. The parent's `onDataChange` callback is assumed present; without it an edit is dropped.
