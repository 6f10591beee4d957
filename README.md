# iconik-io in Dafny

A model of the core of iconik-io, a command-line tool that moves asset
metadata between a spreadsheet (CSV or Excel) and an iconik media-asset
catalog. Exporting walks the search results of a collection page by page and
writes one row per asset under a header row made from a metadata view.
Importing checks the sheet's header row, reconciles its columns with the view,
checks each row's asset against the collection, and sends its title and
metadata back. The model covers three generations of the import engine in
the repository:

- `Iconikio`: the three-column engine of pkg/iconikio, whose records are shared pointers;
- `CsvReaderSvc`: the four-column CSV reader service, with its client's collection walk;
- `InputSvc`: the input service, with its page recursion and asset traversal.

Around these engines sit the reconciliation of a sheet with a view (`Utils`),
the two validation tables (`LabelRules`, `MachineRules`), the record checks
(`ValidateSvc`, the checks inside `Iconikio`), the services over the API
(`AssetsSvc`, `SearchSvc`), the export (`OutputSvc`) and the HTTP facade with
its status triage and retry (`IconikApi`). The domain modules hold the decoded
records and their DTO conversions. `Catalog`, `Json`, `Text`, `AssetLookup`,
`Runs` and `Wrappers` hold what the others share.

Everything that talks to the outside world is a parameter. That covers:

- the HTTP requester: an oracle answering the k-th sending of a request;
- JSON decoding;
- uuid.Parse;
- the remote calls of the engines (a `Remote` value);
- the `%v` and `%d` renderings of decoded values;
- the collection-contents endpoint: a `Catalog` of pages per collection ID;
- the CSV writer: a `Sink` that records rows and whose n-th write may fail.

The state the source changes in place is a class:

- `Iconikio.Iconik`: the client holding the records;
- `CsvReaderSvc.Client`: the shared collection and assets;
- `Catalog.Visited`: the two visited maps shared by a traversal;
- `OutputSvc.Sink`: the writer.

Each method over that state is proved against a function that specifies it
(`RunUpTo`, `SheetUpTo`, `RowsUpTo`, `WalkFrom`, `ScanFrom`, `ExportFrom`,
`Retried`, `CallOutcome`). The lemmas state what the source promises of those
functions.

Some behaviours of the source that the model keeps as written:

- in `Iconikio` the checks of row `index` rewrite the record at position `index - 2`;
  that is the row's own record only while the list started empty;
- in `CsvReaderSvc` the checks receive a copy of the record, so what they
  write is lost and the updates go to the ID of the row's first column;
- `AssetsSvc.ValidateAsset` never returns nil, so in `InputSvc` only the
  filename lookup decides whether a row is skipped;
- the contents DTO always reports zero pages, so the input service never reads past page 1;
- in `CsvReaderSvc` every page read after the first, of whichever collection,
  is appended to the first collection, and its paging follows the first collection's page count;
- a cell is sent by `Iconikio` and `CsvReaderSvc` unless all its comma-separated
  pieces are blank, and by `InputSvc` only when it has more than one piece.

The input service calls `utils.ValidateFilename` for two results, an asset ID
and an error, but the function in utils/validate.go returns only an error.
`InputSvc.Owner` models the two results the caller expects: the ID of the first
asset owning the file, and the error of utils/validate.go.

## Model

| member | source | states |
|---|---|---|
| LabelRules.IndexOf | utils/validate.go:38-42 | the valid-values loop finds `val` exactly when it is one of the listed values, at a position holding it |
| LabelRules.ValidateSchema | utils/validate.go:24-45 | a label outside the table passes; for "Archive Delay, days" the value passes iff strconv.Atoi accepts it; for every other label iff it equals one of the listed values exactly |
| LabelRules.TableEntries | utils/validate.go:11-22 | the ten labels and their lists of valid values |
| LabelRules.OnlyArchiveDelayIsInteger | utils/validate.go:21 | "Archive Delay, days" is the only label with an empty list, i.e. the only integer-valued label |
| LabelRules.UpperCaseBooleansFail | utils/validate.go:12-15 | the boolean labels reject "TRUE" and "FALSE": the comparison is case-sensitive |
| LabelRules.RejectionMessage | utils/validate.go:30-44 | a rejection happens only for a label in the table, with the integer message for the empty list and the "Valid values are" message, listing the values joined by ", ", otherwise |
| LabelRules.ArchiveDelayAcceptsEveryInteger | utils/validate.go:30-35 | every integer written in decimal passes the integer check |
| Runs.HeadersMatch | internal/core/services/csv/reader/svcs.go:63-68 | the header test succeeds iff the header row starts with the expected names, and panics (index out of range) iff the row is shorter and agrees with them as far as it goes |
| Runs.FirstInvalid | internal/core/services/input/svcs.go:202-210 | a cell's pieces produce no error iff every piece passes the schema check of the column's label |
| Runs.CheckPieces | internal/core/services/input/svcs.go:202-210 | the piece loop returns the first schema error, or nil when every piece passes |
| Runs.KeepCell | pkg/iconikio/reader.go:127-128 | the cell test is the blank scan for the engines that skip blank cells and `len(valueArr) > 1` for the input service |
| Runs.ReadCell | pkg/iconikio/reader.go:121-146 | one metadata column: a column missing from the names or labels row stops the row, a cell the rule skips adds nothing, a piece that fails its label's check stops the run with that error, and otherwise all pieces go under the column's name |
| Runs.CollectCells | internal/core/services/input/svcs.go:195-217 | the metadata loop of a row yields exactly the column-by-column reading `CellsUpTo`: it stops at the first failing piece or at a column missing from the names/labels rows |
| Runs.CellsStop | pkg/iconikio/reader.go:121-147 | once the metadata loop has stopped, the later columns change nothing |
| Runs.CellsRead | pkg/iconikio/reader.go:121-147 | a completed metadata loop puts every kept cell's pieces under its column's name with every piece valid for its label, and every name it holds comes from such a cell |
| Runs.CellsKept | pkg/iconikio/reader.go:128-143 | every value a completed metadata loop gathered comes from a cell the rule keeps |
| Text.SplitManyPieces | internal/core/services/input/svcs.go:200-201 | a cell splits into more than one piece iff it holds a comma |
| Text.SplitAllEmpty | pkg/iconikio/reader.go:127-128 | the pieces of a cell are all blank iff the cell holds only commas |
| Text.SplitJoin | internal/core/services/input/svcs.go:200 | joining the comma-split pieces with commas gives the cell back |
| Text.JoinSplit | internal/core/services/input/svcs.go:200 | splitting pieces joined by commas gives the pieces back when none holds a comma |
| Text.ItoaAtoi | utils/validate.go:30-35 | every integer rendered by strconv.Itoa is accepted by strconv.Atoi with the same value |
| Utils.Contains | utils/utils.go:62-69 | `contains` answers true exactly when the value is in the list |
| Utils.IsBlankStringArray | utils/utils.go:71-78 | true exactly when every string of the list is empty |
| Utils.FindByLabel | utils/utils.go:29-36 | the view-field loop stops at the first field whose label equals the header, and reports no match exactly when no field carries it |
| Utils.MatchHeaders | utils/utils.go:11-41 | the header loop builds the names row, the labels row and the unmatched headers, the reference definitions `HeaderNames`, `HeaderLabels`, `Unmatched` |
| Utils.ProjectRow | utils/utils.go:47-54 | a data row is projected onto the cells whose header occurs in the labels row, in column order |
| Utils.MatchCSVtoAPI | utils/utils.go:9-60 | never errs; the result is the names row, the labels row and one projected row per data row (one row more than the sheet), plus the headers past column 3 that no view field carries; data rows shorter than the header row are excluded by a requires (sheets are rectangular, see Left out) |
| Utils.MatchPartition | utils/utils.go:26-41 | each header past column 3 goes either to the matched fields or to the unmatched headers, never both |
| Utils.UnmatchedMembers | utils/utils.go:37-39 | a header is reported unmatched iff it heads a column from index 4 on and no view field carries it as its label |
| Utils.MatchedLabels | utils/utils.go:29-35 | a label enters the labels row past its prefix iff it heads a column from index 4 on and some view field carries it |
| Utils.HeaderRowPrefixes | utils/utils.go:15-22 | the names row starts with id, original_name, size, title, size and the labels row with id, original_name, title: the names row is two entries longer |
| Utils.KeptIndicesExactly | utils/utils.go:47-54 | the projection keeps column j iff its header occurs in the labels row, in increasing column order |
| Utils.ProjectKeeps | utils/utils.go:47-54 | the projected row holds exactly the kept columns' cells, in order |
| Utils.SizeColumnDropped | utils/utils.go:15-22 | with no view field labelled "size", the size column is dropped from every projected row |
| Utils.FourColumnSheet | utils/utils.go:15-22 | (finding, as written) a sheet with the four fixed headers projects each row to [id, original_name, title]: the title lands at index 2, while the names row holds "size" there and "title" at index 3 |
| Utils.AlignedKeepsFixedColumns | utils/utils.go:15-22 | (finding, corrected) with the same four entries heading both rows, every projected row keeps its first four cells in place and has exactly one cell per names-row entry |
| Utils.AlignedMembership | utils/utils.go:26-54 | (finding, corrected) with the four-entry prefix the four fixed headers are kept and a later header is kept iff a view field carries it |
| Utils.ValidateFilename | utils/validate.go:47-58 | nil iff some object of the collection has a file with the record's original name; otherwise the "does not exist in given collection id" message |
| CollectionsDomain.ToFileDTO | internal/core/domain/iconik/assets/collections/collections.go:63-76 | the file DTO copies each of the ten fields of the file into the field of the same name |
| CollectionsDomain.ToFileDTOInjective | internal/core/domain/iconik/assets/collections/collections.go:63-76 | the conversion loses nothing: equal DTOs come from equal files |
| CollectionsDomain.ToObjectDTO | internal/core/domain/iconik/assets/collections/collections.go:48-60 | the object DTO keeps ID, title, type and each file converted in order, with no metadata |
| CollectionsDomain.ToObjectDTOInjective | internal/core/domain/iconik/assets/collections/collections.go:48-60 | equal object DTOs come from equal objects |
| CollectionsDomain.ToObjectDTOs | internal/core/domain/iconik/assets/collections/collections.go:35-38 | the objects are converted one by one, in order |
| CollectionsDomain.ToContentsDTO | internal/core/domain/iconik/assets/collections/collections.go:34-45 | the contents DTO converts every object in order and leaves errors nil and pages 0 |
| CollectionsDomain.ToContentsDTOForgetsPaging | internal/core/domain/iconik/assets/collections/collections.go:34-45 | the contents DTO does not depend on the page's errors or page count |
| CsvDomain.NewRecord | internal/core/services/csv/reader/svcs.go:94-115 | a row's record starts not added, with the row's ID, original name, size and title and no metadata values |
| CsvDomain.CountsPartition | internal/core/services/csv/reader/svcs.go:175-194 | the added and not-added counts of the records add up to their number |
| AssetLookup.FirstOwner | utils/validate.go:48-55 | the filename search stops at the first object with a file of that original name, and finds none exactly when no object has one |
| AssetLookup.FirstWithFiles | internal/core/services/iconik/validate/svcs.go:92-99 | the ID search stops at the first object with that ID that has at least one file, and finds none exactly when no such object exists |
| AssetLookup.LastWithFiles | internal/core/services/input/svcs.go:168-174 | the loop that never breaks ends on the last object with that ID that has a file |
| ValidateSvc.Filename | internal/core/services/iconik/validate/svcs.go:68-79 | the same check as `Utils.ValidateFilename`, on the objects rather than their DTOs: nil iff some object of the collection has a file with the record's original name; otherwise the "does not exist in given collection id" message (the ID it writes goes to a copy and is lost) |
| ValidateSvc.AssetID | internal/core/services/iconik/validate/svcs.go:81-102 | nil iff the ID is a UUID, the remote fetch succeeds and some object with the ID has a file; each failure gives its own message, in the order UUID, fetch, collection |
| ValidateSvc.AssetIDNoFetchForBadId | internal/core/services/iconik/validate/svcs.go:82-85 | a non-UUID ID is rejected whatever the remote fetch would answer |
| ValidateSvc.AssetWithoutFilesFails | internal/core/services/iconik/validate/svcs.go:92-101 | an asset present in the collection but with no files fails the collection check |
| Iconikio.IconikStatusCode | pkg/iconikio/validate.go:50-61 | 400, 404 and 401 map to their own errors; every other status maps to nil |
| Iconikio.StatusErrorsDistinct | pkg/iconikio/validate.go:50-61 | the three errors are pairwise different |
| Iconikio.FilenameCheck | pkg/iconikio/validate.go:63-92 | a failing check leaves the record unchanged |
| Iconikio.FilenameCheckSpec | pkg/iconikio/validate.go:63-92 | a fetch error is returned as is; otherwise the check passes iff some object owns a file of the record's original name, and then the record takes the ID of the first such object and nothing else changes; otherwise the "does not exist" error |
| Iconikio.AssetIDCheck | pkg/iconikio/validate.go:94-132 | a failing check leaves the record unchanged |
| Iconikio.AssetIDCheckSpec | pkg/iconikio/validate.go:94-132 | passes iff the ID is a UUID, the fetch received a status other than 401 and 404, and some object with the ID has a file; the record then takes the first file's original name of the first such object; the non-UUID, 401 and 404 messages |
| Iconikio.TitleOutcome | pkg/iconikio/reader.go:189-218 | a transport error panics (the status of a nil response is read); every received status, 200 or not, returns nil |
| Iconikio.MetadataOutcome | pkg/iconikio/reader.go:221-255 | a transport error is returned; every received status, 200 or not, returns nil |
| Iconikio.AppendAndCheck | pkg/iconikio/reader.go:93-118 | a row appends one fresh record and the checks touch only record `index - 2`; aimed at the new record the flag is "both checks failed" |
| Iconikio.FinishRow | pkg/iconikio/reader.go:119-159 | the row's own record is flagged as added and keeps its ID and name; no other record changes |
| Iconikio.RowStep | pkg/iconikio/reader.go:89-160 | a row shorter than three cells panics; otherwise exactly one record is added to the list |
| Iconikio.SendUpdates | pkg/iconikio/reader.go:149-159 | the title update of record k is sent first; the run crashes exactly when it got no response, and then no metadata update is sent; otherwise the metadata update of the same record follows, and its transport error, if any, ends the run; no record changes |
| Iconikio.RunUpTo | pkg/iconikio/reader.go:89-161 | a run over the rows 2 .. i-1 adds one record per row it handles, and one per row of the table when it completes; it starts with no update sent |
| Iconikio.Iconik.ValidateFilename | pkg/iconikio/validate.go:63-92 | `validateFilename(index)` returns the check's error and rewrites only record `index`, as `FilenameCheck` says |
| Iconikio.Iconik.ValidateAssetID | pkg/iconikio/validate.go:94-132 | `validateAssetID(index)` returns the check's error and rewrites only record `index`, as `AssetIDCheck` says |
| Iconikio.Iconik.ProcessRow | pkg/iconikio/reader.go:90-160 | one data row changes the records and sends the updates as `RowStep` says |
| Iconikio.Iconik.UpdateIconik | pkg/iconikio/reader.go:56-186 | an empty sheet or a short header row panics and a wrong header returns "CSV file not properly formatted for Iconik", both with no record made; otherwise the file count is the number of data rows and the records are the run `RunUpTo` over the matched table; a completed run reports the added and the not-added records |
| Iconikio.Iconik.RunRows | pkg/iconikio/reader.go:89-161 | the row loop ends with the records and the updates sent that `RunUpTo` gives for the whole table |
| Iconikio.Iconik.CountResults | pkg/iconikio/reader.go:163-183 | the two counting loops count the records flagged as added and the others |
| Iconikio.RunStops | pkg/iconikio/reader.go:132-158 | once a row has returned an error or panicked, later rows change nothing |
| Iconikio.RowStepOwnRecord | pkg/iconikio/reader.go:111-119 | with the checks aimed at the row's own record, earlier records stay and the new one is flagged added unless both checks fail |
| Iconikio.ChecksMissNewRecord | pkg/iconikio/reader.go:111-114 | when the list already held records, the checks rewrite an earlier record and the new one keeps its row's ID and name |
| Iconikio.FlagsExtend | pkg/iconikio/reader.go:111-119 | one more record flagged by its own row keeps all records flagged by their rows |
| Iconikio.FlagsStep | pkg/iconikio/reader.go:89-160 | a row step aimed at the new record keeps all records flagged by their rows |
| Iconikio.FlagsNext | pkg/iconikio/reader.go:89-161 | one more row of a run that started empty keeps all records flagged by their rows |
| Iconikio.RunFlagsRows | pkg/iconikio/reader.go:89-161 | in a run that starts with no records, record j belongs to data row j and is flagged added iff not both of its checks fail |
| Iconikio.RowStepCalls | pkg/iconikio/reader.go:149-159 | with the checks aimed at the row's own record, a row sends nothing unless that record was added; then it sends the record's title update, followed, unless that update crashed, by its metadata update holding only non-blank cells; a row that keeps the run going sent the pair iff its record was added |
| Iconikio.RowKeepsPairs | pkg/iconikio/reader.go:149-159 | such a row keeps the updates in title/metadata pairs and one title update per added record |
| Iconikio.RunCalls | pkg/iconikio/reader.go:89-161 | in a run that started with no records, each metadata update comes right after the title update of the same asset and holds only non-blank cells, and while the run goes on there is one title update per added record |
| Iconikio.CompletedRunCounts | pkg/iconikio/reader.go:163-183 | in a completed run that started with no records, successes and failures add up to the number of data rows |
| IconikioUtils.RemoveNullJson | pkg/iconikio/utils.go:39-57 | the map becomes its cleaned form `CleanMap` |
| IconikioUtils.CleanArray | pkg/iconikio/utils.go:48-53 | each object element of an array is cleaned and the rest kept, as `CleanItems` says |
| IconikioUtils.CleanKeys | pkg/iconikio/utils.go:39-57 | a key survives iff it held a non-nil value; a nested object is cleaned in place |
| IconikioUtils.CleanArrays | pkg/iconikio/utils.go:48-53 | an array keeps its length; object elements are cleaned, other elements kept as they are |
| IconikioUtils.CleanedIsNullFree | pkg/iconikio/utils.go:39-57 | the cleaned map has no nil value at any object level it reaches |
| IconikioUtils.NullFreeUnchanged | pkg/iconikio/utils.go:39-57 | a map already free of nil values is left unchanged |
| IconikioUtils.Idempotent | pkg/iconikio/utils.go:39-57 | cleaning twice gives what cleaning once gives |
| MachineRules.SchemaValidator | pkg/validate/validate.go:159-208 | returns the header unchanged; a header with no rule passes with its value; an error keeps the value as given |
| MachineRules.BooleanRule | pkg/validate/validate.go:161-170 | a boolean field passes iff the value is TRUE, FALSE, true or false; the upper-case forms are turned into lower case |
| MachineRules.EnumeratedRules | pkg/validate/validate.go:172-205 | the frame-rate, frame-rate-mode, AI-process and content-category fields pass iff the value is listed; the archive delay iff strconv.Atoi accepts it; only boolean fields change the value |
| MachineRules.GenerationsAgree | pkg/reader/reader.go:242-291 | the reader generation and the validate generation accept the same values and rewrite them alike; only the message prefix differs |
| MachineRules.PairedEntry | pkg/validate/validate.go:159-208 | every machine-name rule has a label in the label-keyed table with the same list of values (integers for the archive delay) |
| MachineRules.AgreesWithLabelTable | pkg/validate/validate.go:159-208 | a value the machine-name rule accepts, after its rewrite, passes the label-keyed check of the paired label, and a value that passes the label-keyed check passes the machine-name rule unchanged |
| MachineRules.KeysApart | pkg/validate/validate.go:161-200 | the rules' field names are pairwise different, so at most one rule applies to a header |
| SearchDomain.ToFileDTO | internal/core/domain/iconik/search/search.go:170-177 | the file DTO keeps the original name and size |
| SearchDomain.ToFileDTOInjective | internal/core/domain/iconik/search/search.go:170-177 | equal file DTOs come from equal files |
| SearchDomain.ToVersionDTO | internal/core/domain/iconik/search/search.go:180-191 | the version DTO keeps ID and status |
| SearchDomain.ToVersionDTOInjective | internal/core/domain/iconik/search/search.go:180-191 | equal version DTOs come from equal versions |
| SearchDomain.ToObjectDTO | internal/core/domain/iconik/search/search.go:125-167 | the object DTO keeps ID, title, metadata and sort values and converts every file and version in order |
| SearchDomain.ToObjectDTOInjective | internal/core/domain/iconik/search/search.go:125-167 | equal object DTOs come from equal objects |
| SearchDomain.ToResultsDTO | internal/core/domain/iconik/search/search.go:104-122 | the results DTO converts every object in order and keeps paging, URLs and errors |
| SearchDomain.ToResultsDTOInjective | internal/core/domain/iconik/search/search.go:104-122 | equal results DTOs come from equal results |
| MetadataDomain.ToOptionDTO | internal/core/domain/iconik/metadata/metadata.go:61-66 | the option DTO keeps the label |
| MetadataDomain.ToOptionDTOInjective | internal/core/domain/iconik/metadata/metadata.go:61-66 | equal option DTOs come from equal options |
| MetadataDomain.ToViewFieldDTO | internal/core/domain/iconik/metadata/metadata.go:45-59 | the view-field DTO keeps name and label and converts every option in order |
| MetadataDomain.ToViewFieldDTOInjective | internal/core/domain/iconik/metadata/metadata.go:45-59 | equal view-field DTOs come from equal view fields |
| MetadataDomain.ToDTO | internal/core/domain/iconik/metadata/metadata.go:31-43 | the view DTO keeps name, description and errors and converts every view field in order; a field is a separator in the DTO iff it is one in the view |
| MetadataDomain.ToDTOInjective | internal/core/domain/iconik/metadata/metadata.go:31-43 | equal view DTOs come from equal views |
| AssetsDomain.ToDTO | internal/core/domain/iconik/assets/assets/assets.go:34-50 | the asset DTO keeps ID and title and leaves the versions empty |
| AssetsDomain.ToDTOKeepsAllButVersions | internal/core/domain/iconik/assets/assets/assets.go:34-50 | two assets give the same DTO iff they agree on everything but their versions |
| AssetsSvc.GetAsset | internal/core/services/iconik/assets/assets/svcs.go:32-39 | the facade's error is passed on with an empty DTO; otherwise its DTO |
| AssetsSvc.UpdateAsset | internal/core/services/iconik/assets/assets/svcs.go:42-49 | the facade's error is passed on with an empty DTO; otherwise its DTO |
| AssetsSvc.ValidateAsset | internal/core/services/iconik/assets/assets/svcs.go:52-64 | never nil: a non-UUID ID, the fetch error, or, when the asset exists, "does not exist in given collection id" |
| AssetsSvc.NoFetchForBadId | internal/core/services/iconik/assets/assets/svcs.go:53-56 | a non-UUID ID is rejected whatever the fetch would answer |
| SearchSvc.SearchDocument | internal/core/services/iconik/search/svcs.go:52-72 | the search document queries the given string among the active assets and collections below the collection, newest first, with no search_after |
| SearchSvc.SearchResults | internal/core/services/iconik/search/svcs.go:32-43 | succeeds iff the facade succeeds and the decoded `errors` member is nil, then with the facade's results; a facade error is passed on, non-nil `errors` become an error |
| SearchSvc.FirstFound | internal/core/services/iconik/search/svcs.go:79-88 | a search error is passed on; no object gives "asset not found"; otherwise the first object |
| SearchSvc.ValidateAndSearchAssetID | internal/core/services/iconik/search/svcs.go:46-89 | a non-UUID ID gives "not a valid asset ID" without a search; otherwise the first object the search by that ID lists |
| SearchSvc.ValidateAndSearchFilename | internal/core/services/iconik/search/svcs.go:92-130 | the first object the search by that file name lists |
| SearchSvc.SearchesAgreeOnUuids | internal/core/services/iconik/search/svcs.go:46-130 | on a UUID both searches send the same document and answer alike |
| SearchSvc.FoundIsFirstListed | internal/core/services/iconik/search/svcs.go:79-88 | an object is found iff the search succeeds with at least one object, and it is the first; a failure carries the empty object |
| OutputSvc.ColumnsAreFields | internal/core/services/output/svcs.go:127-131 | the exported columns are exactly the view fields that are not separators |
| OutputSvc.ColumnsNext | internal/core/services/output/svcs.go:127-131 | one more view field adds a column iff it is not a separator |
| OutputSvc.LabelsNext | internal/core/services/output/svcs.go:191-195 | the label loop appends a field's label iff it is not a separator |
| OutputSvc.NamesNext | internal/core/services/output/svcs.go:127-131 | the name loop appends a field's name iff it is not a separator |
| OutputSvc.Headers | internal/core/services/output/svcs.go:188-200 | one row: id, original_name, size, title, then the labels of the non-separator fields in view order |
| OutputSvc.FormatCell | internal/core/services/output/svcs.go:149-177 | the value loop of a field yields the cell `Cell`: each value rendered, comma-joined when there are several |
| OutputSvc.FillFieldCells | internal/core/services/output/svcs.go:146-179 | the column loop fills cells 4 .. of the row with the field cells, leaving the four opening cells alone |
| OutputSvc.FormatObject | internal/core/services/output/svcs.go:136-179 | one object's row is `FormatRow`: the four opening cells, then one cell per column |
| OutputSvc.FormatResultsObjects | internal/core/services/output/svcs.go:123-185 | never errs; one row per object, in order, as `FormatRows` over the column names |
| OutputSvc.RowMatchesHeader | internal/core/services/output/svcs.go:123-200 | every data row has the header row's width, and the cell under each column label holds that field's values |
| OutputSvc.FixedCells | internal/core/services/output/svcs.go:136-144 | a row opens with the ID and ends its fixed part with the title; without files, name and size are "N/A"; otherwise the first file's name and its size in decimal |
| OutputSvc.TrimsSpaces | internal/core/services/output/svcs.go:154-161 | a string value loses exactly its leading and trailing spaces and keeps the rest in place |
| OutputSvc.CellRoundTrip | internal/core/services/output/svcs.go:173-177 | a cell is the comma-join of its rendered values (empty for none); when no rendered value holds a comma, splitting the cell at commas gives the values back |
| OutputSvc.Sink.WriteAll | internal/core/services/output/svcs.go:107-109 | a write appends the batch when it succeeds and counts one attempt either way |
| OutputSvc.PageDocument | internal/core/services/output/svcs.go:66-90 | the page's search document is the empty-query collection search with the given search_after |
| OutputSvc.ExportPage | internal/core/services/output/svcs.go:92-117 | a page leads to a next one only when it was written without error |
| OutputSvc.PageOutcomes | internal/core/services/output/svcs.go:92-117 | a page is written iff its search succeeds; a search error is returned with no rows; otherwise the write's error; the written rows are the formatted objects; the export goes on iff the search and the write succeed with at least one object, from the last object's sort values |
| OutputSvc.WritePage | internal/core/services/output/svcs.go:66-113 | one page: the sink gains that page's rows and write, and the error and next search_after are the page's |
| OutputSvc.PagesLeadOnlyWithoutError | internal/core/services/output/svcs.go:107-117 | no page of the export leads on after an error |
| OutputSvc.ExportFrom | internal/core/services/output/svcs.go:65-120 | an export of at most `fuel` pages sends at least one search when allowed any, and writes at most once per search |
| OutputSvc.ProcessPage | internal/core/services/output/svcs.go:65-120 | the recursion leaves the sink with the rows and writes of `ExportFrom` over the pages and returns its error |
| OutputSvc.ExportRowsMatchHeader | internal/core/services/output/svcs.go:65-200 | every row an export writes has the width of the header row |
| OutputSvc.ExportFollowsSort | internal/core/services/output/svcs.go:111-116 | the first search uses the given search_after, and each later search uses the sort values of the previous page's last object |
| OutputSvc.ExportEndsAtError | internal/core/services/output/svcs.go:97-119 | the export returns the last page's error, and, when it ends before the page bound, it ends at a page that does not lead on |
| IconikApi.ClassifyCases | internal/api/iconik/collections.go:29-76 | the switch on the first answer: a header-transformation error first, then a missing status, then 429/500/503/504 (retried, with the configured delay for 429 only), then any status other than 200 (unexpected), else success |
| IconikApi.ContractTriage | internal/api/request.go:27-77 | an answer of the request helper never carries a header-transformation error, and it lacks a status exactly when it carries an error |
| IconikApi.RetriedFinds | internal/api/iconik/collections.go:43-69 | the retry resends until a sending succeeds or the attempts run out, and its outcome is that sending's answer (the first answer when no attempt is allowed) |
| IconikApi.RetrySucceedsIfAnySendingDoes | internal/api/iconik/collections.go:64-69 | the retry ends without error as soon as one of its allowed sendings succeeds |
| IconikApi.RetryDo | internal/api/iconik/collections.go:64-69 | the retry loop ends with the answer `Retried` defines |
| IconikApi.Call | internal/api/iconik/collections.go:16-94 | one facade call gives the reply `CallOutcome`: triage, retry, error check, decode |
| IconikApi.CallSucceeds | internal/api/iconik/collections.go:31-93 | a DTO comes back iff the first answer is a success or retried, the last answer has no error and its body decodes, and then it is the decoded body; a header error, a missing status or an unexpected status return the first answer's error with no DTO; past the triage, no DTO means an error |
| IconikApi.UnexpectedStatusIsSilent | internal/api/iconik/collections.go:70-75 | (finding, as written) an answer with an unexpected status and no transport error gives neither a DTO nor an error |
| IconikApi.NotFoundIsSilent | internal/api/iconik/collections.go:70-75 | (finding, as written) a 404 answer gives neither a DTO nor an error |
| IconikApi.RetriedStatusIgnored | internal/api/iconik/collections.go:78-93 | (finding, as written) after a retried status, the first resend without transport error is decoded whatever its status |
| IconikApi.CheckedOutcomeIsSound | internal/api/iconik/collections.go:31-93 | (finding, corrected) a DTO comes only from a last answer with status 200, decoded; every other outcome carries an error |
| IconikApi.RetryResendsFirstRequest | internal/api/iconik/assets.go:16-53 | every call resends its first request when retrying, except GetAsset, whose retry drops the asset ID from the URL |
| IconikApi.IntendedRetryRequest | internal/api/iconik/assets.go:43-53 | the corrected retry request keeps the call's method |
| IconikApi.IntendedRetryResendsFirstRequest | internal/api/iconik/assets.go:16-53 | (finding, corrected) the retry resends the first request, the asset URL included |
| IconikApi.IntendedRetryFindsAsset | internal/api/iconik/assets.go:16-53 | (finding, corrected) a GetAsset answered 429 and then 200 at the asset's own URL returns that asset's decoded body, whatever the bare assets URL answers |
| IconikApi.GetCollectionContentsCall | internal/api/iconik/collections.go:16-94 | GET url+path+ID+"/contents/" with the given query, through the shared call |
| IconikApi.GetCollectionCall | internal/api/iconik/collections.go:97-175 | GET url+path+ID+"/", through the shared call |
| IconikApi.GetAssetCall | internal/api/iconik/assets.go:16-95 | GET url+path+"/"+ID+"/", retried at url+path, through the shared call |
| IconikApi.PatchAssetCall | internal/api/iconik/assets.go:98-177 | PATCH url+path+"/"+ID+"/" with the payload, through the shared call |
| IconikApi.GetMetadataViewCall | internal/api/iconik/metadata.go:15-93 | GET url+path+"/"+viewID+"/", through the shared call |
| IconikApi.UpdateMetadataInAssetCall | internal/api/iconik/metadata.go:96-170 | PUT url+path+"/"+assetID+"/views/"+viewID+"/" with the payload, through the shared call |
| IconikApi.SearchCall | internal/api/iconik/search.go:15-92 | POST url+path with per_page set to the configured page size, through the shared call |
| IconikApi.TooManyRequestsThenOk | internal/api/iconik/collections.go:39-69 | a 429 first answer is retried with the configured delay, and a 200 on the first resend is what gets decoded |
| CsvReaderSvc.Send | internal/core/services/csv/reader/svcs.go:152-172 | sending the title and the metadata changes no record |
| CsvReaderSvc.AcceptedRow | internal/core/services/csv/reader/svcs.go:124-172 | an accepted row appends exactly one record and keeps the earlier ones |
| CsvReaderSvc.ReaderRow | internal/core/services/csv/reader/svcs.go:92-172 | a row shorter than four cells panics; otherwise exactly one record is appended and the earlier ones kept |
| CsvReaderSvc.SheetUpTo | internal/core/services/csv/reader/svcs.go:91-173 | a run over the rows 2 .. i-1 adds one record per row it handles, one per data row when it keeps going |
| CsvReaderSvc.SheetStop | internal/core/services/csv/reader/svcs.go:120-171 | once a row has returned an error or panicked, later rows change nothing |
| CsvReaderSvc.SheetNext | internal/core/services/csv/reader/svcs.go:91-92 | a running run takes the next row of the table |
| CsvReaderSvc.UpdateRow | internal/core/services/csv/reader/svcs.go:92-123 | the loop body yields the row step `ReaderRow` |
| CsvReaderSvc.FinishRow | internal/core/services/csv/reader/svcs.go:124-172 | the flag, the metadata cells and the two updates yield `AcceptedRow` |
| CsvReaderSvc.RunRows | internal/core/services/csv/reader/svcs.go:91-173 | the row loop ends in the state `SheetUpTo` gives for the whole table |
| CsvReaderSvc.CountResults | internal/core/services/csv/reader/svcs.go:175-194 | the two counting loops count the records flagged as added and the others |
| CsvReaderSvc.UpdateIconik | internal/core/services/csv/reader/svcs.go:62-197 | an empty sheet or a header row shorter than four panics, and a data row shorter than the header row is taken as a crash (sheets are rectangular, see Left out); wrong headers return "CSV file not properly formatted for Iconik"; in these cases no record and no call; otherwise the run is `SheetUpTo` over the matched table, the file count is the number of data rows, and a completed run reports the added and the not-added records |
| CsvReaderSvc.ImportRows | internal/core/services/csv/reader/svcs.go:70-197 | after the header test: the matched table's row loop and the two counts |
| CsvReaderSvc.RecordsExtend | internal/core/services/csv/reader/svcs.go:94-124 | appending the next row's record keeps every record tied to its own row |
| CsvReaderSvc.RecordsNext | internal/core/services/csv/reader/svcs.go:91-173 | one more row keeps every record tied to its own row |
| CsvReaderSvc.RunRecordsRows | internal/core/services/csv/reader/svcs.go:91-173 | record j holds data row j's first four cells and is flagged added iff not both of that row's checks fail |
| CsvReaderSvc.SendCalls | internal/core/services/csv/reader/svcs.go:152-172 | a title update under the given ID is sent first; the metadata update follows only when it succeeds; a row that keeps the run going sent both |
| CsvReaderSvc.AcceptedCalls | internal/core/services/csv/reader/svcs.go:124-172 | an accepted row's calls all go to the ID of its first column, pair title and metadata, and carry no blank cell |
| CsvReaderSvc.RowCalls | internal/core/services/csv/reader/svcs.go:117-172 | a row whose checks both fail sends nothing; a row that keeps the run going adds one title update per record it flags added |
| CsvReaderSvc.RunCalls | internal/core/services/csv/reader/svcs.go:91-173 | on every run each metadata update follows the title update of the same asset and no blank cell is sent; on a completed run the title updates equal the records flagged as added |
| CsvReaderSvc.CompletedRunCounts | internal/core/services/csv/reader/svcs.go:175-194 | on a completed run the successes and the failures add up to the number of files to update |
| CsvReaderSvc.Fetch | internal/core/services/csv/reader/svcs.go:200-248 | success only for a listed collection, leaving a collection in place; once a collection is held, a read only appends objects and keeps its errors and page count |
| CsvReaderSvc.SubCollectionReadsOnePage | internal/core/services/csv/reader/svcs.go:222-245 | a sub-collection read into a held single-page, error-free collection appends its first page only |
| CsvReaderSvc.WalkFrom | internal/core/services/csv/reader/svcs.go:250-274 | the walk never unmarks a collection |
| CsvReaderSvc.WalkDeduplicates | internal/core/services/csv/reader/svcs.go:251-256 | the walk only appends assets-typed objects whose IDs were not seen, so the assets list stays free of repeats, fully marked, and keeps its start |
| CsvReaderSvc.DescentDeduplicates | internal/core/services/csv/reader/svcs.go:257-270 | the same, where the walk descends into a collection |
| CsvReaderSvc.WalkDescendsOnce | internal/core/services/csv/reader/svcs.go:257-270 | each collection is descended into at most once, only after its contents were read, and the collections marked are exactly those descended into |
| CsvReaderSvc.DescentOnce | internal/core/services/csv/reader/svcs.go:261-269 | the same, where the walk descends into a collection |
| CsvReaderSvc.WalkCovers | internal/core/services/csv/reader/svcs.go:250-274 | every assets-typed object the walk passes has its ID marked when it ends, and the map never loses an ID |
| CsvReaderSvc.DescentCovers | internal/core/services/csv/reader/svcs.go:261-269 | the same, where the walk descends into a collection |
| CsvReaderSvc.Client.GetCollection | internal/core/services/csv/reader/svcs.go:200-248 | the page recursion leaves the shared collection and the error as `Fetch` says, and the assets alone |
| CsvReaderSvc.Client.ProcessObjects | internal/core/services/csv/reader/svcs.go:250-274 | the loop leaves the collection, assets and both maps as `WalkFrom` says, and never returns an error |
| InputSvc.GetCollectionObjects | internal/core/services/input/svcs.go:57-79 | a success needs the collection to be listed; a failed fetch or a page with non-nil errors ends the recursion with that error |
| InputSvc.Accumulates | internal/core/services/input/svcs.go:67-76 | the objects passed in only prefix the result: the same pages are read and the same error ends the recursion whatever was accumulated |
| InputSvc.ConvertedPagesStopAtOne | internal/core/services/input/svcs.go:69-78 | the converted page reports zero pages, so the recursion never reads past page 1 |
| InputSvc.ProcessObjects | internal/core/services/input/svcs.go:82-111 | the loop returns the assets of `ScanFrom` and leaves both maps as it says; it never returns an error |
| InputSvc.ScanDeduplicates | internal/core/services/input/svcs.go:84-88 | only assets-typed objects not seen before are appended, so the assets stay free of repeats, fully marked, and keep their start |
| InputSvc.ScanMarksFetched | internal/core/services/input/svcs.go:90-101 | a collection is marked only after its page recursion succeeded; the visited set only grows |
| InputSvc.DescentIgnoresRest | internal/core/services/input/svcs.go:102-106 | after descending into a sub-collection the loop returns, so the rest of the list it was scanning is ignored |
| InputSvc.ResolveName | internal/core/services/input/svcs.go:168-174 | the nested loop over assets and files yields `NameAfter` over all assets |
| InputSvc.ResolvedName | internal/core/services/input/svcs.go:168-174 | the name the loop settles on is the last file of the last asset with the row's ID that has files, or the row's own name when there is none |
| InputSvc.OwnerSpec | internal/core/services/input/svcs.go:176-179 | the filename lookup succeeds iff some asset has a file of that name, then with the first such asset's ID; its error is the one of `utils.ValidateFilename` |
| InputSvc.Send | internal/core/services/input/svcs.go:219-239 | sending the title and the metadata leaves the failure map alone |
| InputSvc.RowsStop | internal/core/services/input/svcs.go:204-238 | once a row has returned an error or panicked, later rows change nothing |
| InputSvc.RowsNext | internal/core/services/input/svcs.go:160-161 | a running run takes the next row of the table |
| InputSvc.UpdateRow | internal/core/services/input/svcs.go:161-239 | the loop body yields the row step `InputRow` |
| InputSvc.RunRows | internal/core/services/input/svcs.go:160-240 | the row loop ends in the state `RowsUpTo` gives for the whole table |
| InputSvc.UpdateIconik | internal/core/services/input/svcs.go:132-251 | an empty sheet or a short header row panics, and a data row shorter than the header row is taken as a crash (sheets are rectangular, see Left out); wrong headers return "CSV file not properly formatted for Iconik"; no call in those cases; otherwise the run is `RowsUpTo` over the matched table, and a completed run reports the data rows less the failure map's entries |
| InputSvc.ImportRows | internal/core/services/input/svcs.go:139-251 | after the header test: the matched table's row loop and the reported count |
| InputSvc.SkippedExactlyWhenNameUnknown | internal/core/services/input/svcs.go:167-185 | since `ValidateAsset` never passes, a row is skipped iff no asset has a file with the row's resolved name |
| InputSvc.RowKeepsPairs | internal/core/services/input/svcs.go:187-239 | one row keeps each metadata update right after the title update of the same asset |
| InputSvc.RunSendsPairs | internal/core/services/input/svcs.go:160-240 | every run sends a metadata update only after the title update of the same asset, and only cells that split on commas |
| InputSvc.SkippedRows | internal/core/services/input/svcs.go:181-185 | at most one skip per handled row |
| InputSvc.RowCounts | internal/core/services/input/svcs.go:181-239 | a skipped row sends nothing and adds at most one failure entry; any other row that keeps the run going sends exactly one title update and adds none |
| InputSvc.CompletedRunCounts | internal/core/services/input/svcs.go:160-240 | every row not skipped sent exactly one title update, and the failure map has at most one entry per skipped row |
| InputSvc.UpdatedCount | internal/core/services/input/svcs.go:242 | (finding, corrected) the success count as the data rows less the skipped rows |
| InputSvc.UpdatedCountIsExact | internal/core/services/input/svcs.go:242 | (finding, corrected) on a completed run the corrected count is the number of title updates sent, and the reported count is never below it |
| InputSvc.DuplicateSkipsOverReport | internal/core/services/input/svcs.go:183 | (finding, as written) a sheet id, original_name, size, title, Genre with two rows x, a.mov, 0, t, g and a view labelling one field "Genre" passes the header test; after the reconciliation both rows are skipped but leave one failure entry, so the run reports one asset updated where none was |

## Left out

- HTTP transport, JSON marshalling and unmarshalling: the requester, the API calls and `decode` are parameters; a marshalling failure ("error marshaling JSON") cannot happen on the values the model builds.
- uuid.Parse is the parameter `isUuid`; strconv.Atoi is modelled by its accepted syntax (`Text.AtoiAccepts`).
- Floating-point values: decoded JSON numbers are integers, so the `%d` rendering of a float64 cell in FormatResultsObjects is not modelled; every other value's `%d` rendering is the parameter `other`.
- File I/O: opening and reading the CSV or Excel file, and the csv.Writer itself (the `Sink` keeps the rows it was given).
- OutputSvc.Sink.WriteAll: a failing write appends nothing; partial writes before the error are not modelled.
- Logging and printing: every fmt.Print and log line, and the report of the headers that did not match.
- pkg/iconikio's matchCSVtoAPI is not part of this model: `Iconikio.Iconik.UpdateIconik` takes the table it returns as a parameter.
- Iconikio.Remote: the collection fetch of validateFilename and the asset fetch of validateAssetID are made again for every row, but the model gives every fetch of a run the same answer (one collection outcome, one status per asset ID); a run in which a later fetch fails while earlier ones succeeded is not modelled.
- Utils.RowsCoverHeader, CsvReaderSvc.UpdateIconik, InputSvc.UpdateIconik: sheets are taken to be rectangular, as csv.ReadAll with its default field count makes them; a data row shorter than the header row is reported as a crash even where MatchCSVtoAPI would index only its shorter, matched columns.
- pkg/reader's ReadCSVFile, updateTitle and updateMetadata, a fourth import engine, are not part of this model; of pkg/reader only schemaValidator is modelled, in `MachineRules`.
- pkg/iconikio's other operations: Excel reading, the export and the collection walk of that package are not part of this model.
- The objects, context and API of the CSV reader service are used there without being declared; they are the parameters `objects` and `remote`.
- The per_page=500 and page query parameters of the CSV reader's GetCollection are not modelled: a page request is a lookup in the `Catalog`.
- A `Catalog` answers a request for a page it does not list with an error; the real server's answer to such a page is not modelled.
- OutputSvc.ProcessPage: the recursion is bounded by a `fuel` argument, since the server decides when the result pages end; the lemmas say what happens within the bound.
- The search path constant named by the search and export services is not defined in internal/api/iconik/paths.go; it is the parameter `path`.
- Retry timing: delays, backoff and jitter are not modelled; only the delay chosen (the configured one for 429, none otherwise) is stated.
- IconikApi.RetryDo: retry-go reads zero attempts as "retry without limit"; the model makes no resend for zero attempts.
- Context timeouts and cancellation are not modelled.
- errors.Is on the header-transformation errors is modelled as equality, and their messages are stand-ins: internal/core/domain/errors.go, as held, defines only the internal error.
- The value of the PerPage query-parameter name is not defined in the files held; it is the stand-in "per_page".
- internal/api/request.go's Do is not modelled as code: what it promises about its answers is the predicate `IconikApi.FollowsRequestContract`, a hypothesis of the lemmas that need it.
- The concurrency-free Go maps shared by a traversal are modelled as sets in one shared object (`Catalog.Visited`); their iteration order plays no part.
- app/, cmd/, config/ and pkg/assets, pkg/web and pkg/model (command-line wiring, configuration, reports) are not part of this model.

## Findings

| source | as written | input that shows it | evidently intended | confidence | as-written member | corrected member |
|---|---|---|---|---|---|---|
| utils/utils.go:15-22 | the names row starts id, original_name, size, title, size and the labels row id, original_name, title, so "size" never reaches the labels row and the names row is two entries longer | a sheet with header row id, original_name, size, title and data row a, b, 10, t is projected to a, b, t: the title lands at index 2, under "size" in the names row | both rows start id, original_name, size, title, so every projected row keeps its four fixed cells in place | high, not executed | Utils.FourColumnSheet | Utils.AlignedKeepsFixedColumns, Utils.AlignedMembership |
| internal/core/services/input/svcs.go:183 | a skipped row is recorded in a map keyed by asset ID, and line 242 reports the data rows less the map's size as updated | a sheet with headers id, original_name, size, title, Genre and two data rows x, a.mov, 0, t, g, a view with one field labelled "Genre", a collection without assets and no ID a UUID: both rows are skipped, the map holds one entry, and "1 of 2" assets are reported updated while none was | report the data rows less the rows skipped | high, not executed | InputSvc.DuplicateSkipsOverReport | InputSvc.UpdatedCount, InputSvc.UpdatedCountIsExact |
| internal/api/iconik/collections.go:70-75 | an answer with a status other than 200 and the retried ones returns `err`, which is nil once a status was received; the same branch is in all seven calls | a 404 answer without transport error: the call returns an empty DTO and a nil error | return an error naming the unexpected status | high, not executed | IconikApi.UnexpectedStatusIsSilent, IconikApi.NotFoundIsSilent | IconikApi.CheckedOutcome, IconikApi.CheckedOutcomeIsSound |
| internal/api/iconik/collections.go:78-93 | after the retry only the transport error is checked, and the last answer's body is decoded whatever its status | a first answer 500, then a resend answered 404 with a body that decodes: the call returns that body as its DTO with no error | decode only an answer with status 200 | high, not executed | IconikApi.RetriedStatusIgnored | IconikApi.CheckedOutcome, IconikApi.CheckedOutcomeIsSound |
| internal/api/iconik/assets.go:48 | the retry of GetAsset sends GET to url+path, without the asset ID | a first answer 429 to GetAsset for asset X: the retry fetches the assets endpoint itself instead of X | resend the first request, url+path+"/"+ID+"/" | high, not executed | IconikApi.RetryResendsFirstRequest | IconikApi.IntendedRetryRequest, IconikApi.IntendedRetryResendsFirstRequest, IconikApi.IntendedRetryFindsAsset |

The engines and API calls model the code as written, so they keep these
defects. The corrected members are proved beside them.
