/**
 * The CSV reader service (internal/core/services/csv/reader/svcs.go): the
 * four-column import engine `UpdateIconik`, and the collection walk of the
 * client, `GetCollection` and `ProcessObjects`.
 *
 * The engine keeps one record per data row; the record appended to the list
 * and the one the row's loop flags and fills are the same object, so both
 * writes land on the last record of the list. The two checks receive a copy
 * of the record, so the updates always go to the ID of the row's first
 * column. The collection of the client is shared by every call: the first
 * page read becomes it, and every later page, of whichever collection, is
 * appended to its objects while its page count and errors stay those of the
 * first page.
 */
module CsvReaderSvc {
  import opened Wrappers
  import opened Json
  import opened CollectionsDomain
  import opened Catalog
  import opened Runs
  import CsvDomain
  import Utils
  import IconikioTypes
  import ValidateSvc

  type Record = CsvDomain.Record

  /**
   * The remote side of an import: uuid.Parse, the asset fetch behind the
   * asset-ID check (its error), and the title update and metadata update of
   * an asset (the view being fixed for the run), each giving its error.
   */
  datatype Remote = Remote(
    isUuid: string -> bool,
    getAsset: string -> MaybeError,
    updateTitle: (string, string) -> MaybeError,
    updateMetadata: (string, map<string, CsvDomain.FieldValues>) -> MaybeError)

  /** The headers the file must open with. */
  const ExpectedHeaders: seq<string> := ["id", "original_name", "size", "title"]

  /** The first metadata column of a matched row. */
  const FirstMetadataColumn := 4

  /** The records kept so far, the calls made so far, and how the run stands. */
  datatype Sheet = Sheet(recs: seq<Record>, calls: seq<Call>, halt: Halt)

  /** The record a data row starts as. */
  function RowRecord(row: seq<string>): Record
    requires |row| >= 4
  {
    CsvDomain.NewRecord(row[0], row[1], row[2], row[3])
  }

  /** A row goes on to the updates unless both the asset-ID check and the filename check fail. */
  predicate RowAccepted(row: seq<string>, objects: seq<Object>, remote: Remote)
    requires |row| >= 4
  {
    var rec := RowRecord(row);
    ValidateSvc.AssetID(objects, rec, remote.isUuid, remote.getAsset).None? || ValidateSvc.Filename(objects, rec).None?
  }

  /** The title update, then the metadata update, each ending the run on error. */
  function Send(s: Sheet, assetID: string, title: string, values: map<string, CsvDomain.FieldValues>, remote: Remote): (r: Sheet)
    ensures r.recs == s.recs
  {
    var s1 := s.(calls := s.calls + [TitleCall(assetID, title)]);
    match remote.updateTitle(assetID, title)
    case Some(e) => s1.(halt := Failed(e))
    case None =>
      var s2 := s1.(calls := s1.calls + [MetadataCall(assetID, values)]);
      match remote.updateMetadata(assetID, values)
      case Some(e) => s2.(halt := Failed(e))
      case None => s2
  }

  /**
   * The rest of a row whose checks did not both fail: its record, flagged
   * as added and given the metadata cells read, is appended, and the title
   * and the metadata are sent under the row's own ID.
   */
  function AcceptedRow(s: Sheet, row: seq<string>, names: seq<string>, labels: seq<string>, remote: Remote): (r: Sheet)
    requires |row| >= 4
    ensures |r.recs| == |s.recs| + 1 && r.recs[..|s.recs|] == s.recs
  {
    var cells := CellsUpTo(row, names, labels, FirstMetadataColumn, |row|, SkipBlank);
    var s1 := s.(recs := s.recs + [RowRecord(row).(added := true, metadataValues := cells.values)]);
    match cells
    case CellsCrashed(_) => s1.(halt := Crashed)
    case CellsFailed(_, e) => s1.(halt := Failed(e))
    case CellsOk(values) => Send(s1, row[0], row[3], values, remote)
  }

  /** One data row: its record is appended, and unless both checks fail the row goes on to the updates. */
  function ReaderRow(s: Sheet, row: seq<string>, names: seq<string>, labels: seq<string>, objects: seq<Object>, remote: Remote)
    : (r: Sheet)
    ensures |row| < 4 ==> r == s.(halt := Crashed)
    ensures |row| >= 4 ==> |r.recs| == |s.recs| + 1 && r.recs[..|s.recs|] == s.recs
  {
    if |row| < 4 then s.(halt := Crashed)
    else if !RowAccepted(row, objects, remote) then s.(recs := s.recs + [RowRecord(row)])
    else AcceptedRow(s, row, names, labels, remote)
  }

  /** The rows 2 .. i-1 of the matched table, processed in order until the run stops. */
  function SheetUpTo(matching: seq<seq<string>>, objects: seq<Object>, remote: Remote, i: nat): (r: Sheet)
    requires 2 <= i <= |matching|
    ensures r.halt == Running ==> |r.recs| == i - 2
    ensures |r.recs| <= i - 2
  {
    if i == 2 then Sheet([], [], Running)
    else
      var prev := SheetUpTo(matching, objects, remote, i - 1);
      if prev.halt != Running then prev
      else ReaderRow(prev, matching[i - 1], matching[0], matching[1], objects, remote)
  }

  /** Once the run has stopped, later rows change nothing. */
  lemma {:induction false} SheetStop(matching: seq<seq<string>>, objects: seq<Object>, remote: Remote, i: nat, j: nat)
    requires 2 <= i <= j <= |matching|
    requires SheetUpTo(matching, objects, remote, i).halt != Running
    ensures SheetUpTo(matching, objects, remote, j) == SheetUpTo(matching, objects, remote, i)
  {
    if i < j {
      SheetStop(matching, objects, remote, i, j - 1);
    }
  }

  /** A running run takes the next row. */
  lemma SheetNext(matching: seq<seq<string>>, objects: seq<Object>, remote: Remote, i: nat)
    requires 2 <= i < |matching|
    requires SheetUpTo(matching, objects, remote, i).halt == Running
    ensures SheetUpTo(matching, objects, remote, i + 1)
            == ReaderRow(SheetUpTo(matching, objects, remote, i), matching[i], matching[0], matching[1], objects, remote)
  {
  }

  /** The body of the row loop: the record and the two checks. */
  method UpdateRow(s: Sheet, row: seq<string>, names: seq<string>, labels: seq<string>, objects: seq<Object>, remote: Remote)
    returns (r: Sheet)
    ensures r == ReaderRow(s, row, names, labels, objects, remote)
  {
    if |row| < 4 {
      return s.(halt := Crashed);
    }
    var csvMetadata := CsvDomain.NewRecord(row[0], row[1], row[2], row[3]);
    var errAssetID := ValidateSvc.AssetID(objects, csvMetadata, remote.isUuid, remote.getAsset);
    var errFilename := ValidateSvc.Filename(objects, csvMetadata);
    if errAssetID != None && errFilename != None {
      return s.(recs := s.recs + [csvMetadata]);
    }
    r := FinishRow(s, row, names, labels, remote);
  }

  /** The rest of the row loop's body: the flag, the cells, the two updates. */
  method FinishRow(s: Sheet, row: seq<string>, names: seq<string>, labels: seq<string>, remote: Remote) returns (r: Sheet)
    requires |row| >= 4
    ensures r == AcceptedRow(s, row, names, labels, remote)
  {
    var p := |s.recs|;
    r := s.(recs := s.recs + [CsvDomain.NewRecord(row[0], row[1], row[2], row[3])]);
    r := r.(recs := r.recs[p := r.recs[p].(added := true)]);
    var cells := CollectCells(row, names, labels, FirstMetadataColumn, SkipBlank);
    r := r.(recs := r.recs[p := r.recs[p].(metadataValues := cells.values)]);
    match cells {
      case CellsCrashed(_) =>
        return r.(halt := Crashed);
      case CellsFailed(_, e) =>
        return r.(halt := Failed(e));
      case CellsOk(values) =>
        var id := r.recs[p].id;
        r := r.(calls := r.calls + [TitleCall(id, r.recs[p].title)]);
        var err := remote.updateTitle(id, r.recs[p].title);
        if err.Some? {
          return r.(halt := Failed(err.value));
        }
        r := r.(calls := r.calls + [MetadataCall(id, values)]);
        err := remote.updateMetadata(id, values);
        if err.Some? {
          return r.(halt := Failed(err.value));
        }
    }
  }

  /** The row loop, from the first data row until the end or the first stop. */
  method RunRows(matchingData: seq<seq<string>>, objects: seq<Object>, remote: Remote) returns (s: Sheet)
    requires |matchingData| >= 2
    ensures s == SheetUpTo(matchingData, objects, remote, |matchingData|)
  {
    var names, labels := matchingData[0], matchingData[1];
    s := Sheet([], [], Running);
    var index := 2;
    while index < |matchingData| && s.halt == Running
      invariant 2 <= index <= |matchingData|
      invariant s == SheetUpTo(matchingData, objects, remote, index)
    {
      SheetNext(matchingData, objects, remote, index);
      s := UpdateRow(s, matchingData[index], names, labels, objects, remote);
      index := index + 1;
    }
    if index < |matchingData| {
      SheetStop(matchingData, objects, remote, index, |matchingData|);
    }
  }

  /** The two counting loops: records flagged as added, and the rest. */
  method CountResults(recs: seq<Record>) returns (successes: nat, failures: nat)
    ensures successes == CsvDomain.CountAdded(recs)
    ensures failures == CsvDomain.CountNotAdded(recs)
  {
    successes, failures := 0, 0;
    var i := 0;
    while i < |recs|
      invariant i <= |recs|
      invariant successes == CsvDomain.CountAdded(recs[..i])
    {
      assert recs[..i + 1][..i] == recs[..i];
      if recs[i].added {
        successes := successes + 1;
      }
      i := i + 1;
    }
    assert recs[..i] == recs;
    i := 0;
    while i < |recs|
      invariant i <= |recs|
      invariant failures == CsvDomain.CountNotAdded(recs[..i])
    {
      assert recs[..i + 1][..i] == recs[..i];
      if !recs[i].added {
        failures := failures + 1;
      }
      i := i + 1;
    }
    assert recs[..i] == recs;
  }

  /**
   * `UpdateIconik`: the header test, the reconciliation of the sheet with
   * the view, the row loop and the two counts. `objects` are the collection
   * objects the checks look in. Returns how the run ended, the records
   * kept, the calls made, the number of files to update and the two counts
   * the run reports.
   */
  method UpdateIconik(viewFields: seq<IconikioTypes.ViewField>, objects: seq<Object>, metadataFile: seq<seq<string>>, remote: Remote)
    returns (halt: Halt, recs: seq<Record>, calls: seq<Call>, filesToUpdate: int, successes: nat, failures: nat)
    ensures |metadataFile| == 0 ==> halt == Crashed && recs == [] && calls == []
    ensures |metadataFile| > 0 && HeadersMatch(metadataFile[0], ExpectedHeaders) == None ==> halt == Crashed && recs == [] && calls == []
    ensures |metadataFile| > 0 && HeadersMatch(metadataFile[0], ExpectedHeaders) == Some(false) ==>
              halt == Failed("CSV file not properly formatted for Iconik") && recs == [] && calls == []
    ensures (|metadataFile| > 0 && HeadersMatch(metadataFile[0], ExpectedHeaders) == Some(true) &&
             !Utils.RowsCoverHeader(metadataFile)) ==> halt == Crashed && recs == [] && calls == []
    ensures (|metadataFile| > 0 && HeadersMatch(metadataFile[0], ExpectedHeaders) == Some(true) &&
             Utils.RowsCoverHeader(metadataFile)) ==>
              var run := SheetUpTo(Utils.MatchedTable(viewFields, metadataFile), objects, remote, |metadataFile| + 1);
              halt == run.halt && recs == run.recs && calls == run.calls && filesToUpdate == |metadataFile| - 1 &&
              (halt == Running ==> successes == CsvDomain.CountAdded(recs) && failures == CsvDomain.CountNotAdded(recs))
  {
    recs, calls, filesToUpdate, successes, failures := [], [], 0, 0, 0;
    if |metadataFile| == 0 {
      return Crashed, recs, calls, filesToUpdate, successes, failures;
    }
    var ok := HeadersMatch(metadataFile[0], ExpectedHeaders);
    if ok == None {
      return Crashed, recs, calls, filesToUpdate, successes, failures;
    } else if ok == Some(false) {
      return Failed("CSV file not properly formatted for Iconik"), recs, calls, filesToUpdate, successes, failures;
    }
    if !Utils.RowsCoverHeader(metadataFile) {
      return Crashed, recs, calls, filesToUpdate, successes, failures;
    }
    halt, recs, calls, filesToUpdate, successes, failures := ImportRows(viewFields, objects, metadataFile, remote);
  }

  /** The part of `UpdateIconik` after the header test: the reconciliation, the row loop and the counts. */
  method ImportRows(viewFields: seq<IconikioTypes.ViewField>, objects: seq<Object>, metadataFile: seq<seq<string>>, remote: Remote)
    returns (halt: Halt, recs: seq<Record>, calls: seq<Call>, filesToUpdate: int, successes: nat, failures: nat)
    requires |metadataFile| > 0 && Utils.RowsCoverHeader(metadataFile)
    ensures var run := SheetUpTo(Utils.MatchedTable(viewFields, metadataFile), objects, remote, |metadataFile| + 1);
            halt == run.halt && recs == run.recs && calls == run.calls && filesToUpdate == |metadataFile| - 1 &&
            (halt == Running ==> successes == CsvDomain.CountAdded(recs) && failures == CsvDomain.CountNotAdded(recs))
  {
    var matchingData, nonMatching, err := Utils.MatchCSVtoAPI(viewFields, metadataFile);
    filesToUpdate := |matchingData| - 2;
    var s := RunRows(matchingData, objects, remote);
    halt, recs, calls := s.halt, s.recs, s.calls;
    successes, failures := 0, 0;
    if halt != Running {
      return;
    }
    successes, failures := CountResults(recs);
  }

  /**
   * Record j was made from data row j (row j + 2 of the matched table): it
   * holds that row's ID, original name, size and title, and it is flagged
   * as added exactly when not both checks of the row fail.
   */
  predicate RecordsFollowRows(recs: seq<Record>, matching: seq<seq<string>>, objects: seq<Object>, remote: Remote)
  {
    |recs| + 2 <= |matching| &&
    forall j :: 0 <= j < |recs| ==> FromRow(recs[j], matching[j + 2], objects, remote)
  }

  /** The record holds the row's ID, original name, size and title, and is flagged as the row's checks say. */
  predicate FromRow(rec: Record, row: seq<string>, objects: seq<Object>, remote: Remote)
  {
    |row| >= 4 &&
    rec.id == row[0] && rec.originalName == row[1] && rec.size == row[2] && rec.title == row[3] &&
    rec.added == RowAccepted(row, objects, remote)
  }

  /** Appending the record of the next row keeps every record tied to its own row. */
  lemma RecordsExtend(recs: seq<Record>, next: seq<Record>, matching: seq<seq<string>>, objects: seq<Object>, remote: Remote)
    requires RecordsFollowRows(recs, matching, objects, remote)
    requires |recs| + 3 <= |matching| && |matching[|recs| + 2]| >= 4
    requires |next| == |recs| + 1 && next[..|recs|] == recs
    requires var row := matching[|recs| + 2];
      next[|recs|].id == row[0] && next[|recs|].originalName == row[1] && next[|recs|].size == row[2] &&
      next[|recs|].title == row[3] && next[|recs|].added == RowAccepted(row, objects, remote)
    ensures RecordsFollowRows(next, matching, objects, remote)
  {
    forall j | 0 <= j < |next|
      ensures FromRow(next[j], matching[j + 2], objects, remote)
    {
      if j < |recs| {
        assert FromRow(recs[j], matching[j + 2], objects, remote);
        assert next[..|recs|][j] == next[j];
      } else {
        assert j == |recs|;
      }
    }
  }

  /** One row of a run keeps every record tied to its own row. */
  lemma RecordsNext(matching: seq<seq<string>>, objects: seq<Object>, remote: Remote, i: nat)
    requires 2 < i <= |matching|
    requires RecordsFollowRows(SheetUpTo(matching, objects, remote, i - 1).recs, matching, objects, remote)
    ensures RecordsFollowRows(SheetUpTo(matching, objects, remote, i).recs, matching, objects, remote)
  {
    var prev := SheetUpTo(matching, objects, remote, i - 1);
    var row := matching[i - 1];
    if prev.halt == Running && |row| >= 4 {
      var next := ReaderRow(prev, row, matching[0], matching[1], objects, remote);
      assert |prev.recs| == i - 3;
      RecordsExtend(prev.recs, next.recs, matching, objects, remote);
    }
  }

  /**
   * Each data row appends exactly one record, in row order, holding the
   * row's first four cells and flagged as added exactly when not both of
   * the row's checks fail.
   */
  lemma {:induction false} RunRecordsRows(matching: seq<seq<string>>, objects: seq<Object>, remote: Remote, i: nat)
    requires 2 <= i <= |matching|
    ensures RecordsFollowRows(SheetUpTo(matching, objects, remote, i).recs, matching, objects, remote)
  {
    if i > 2 {
      RunRecordsRows(matching, objects, remote, i - 1);
      RecordsNext(matching, objects, remote, i);
    }
  }

  /**
   * The two updates of a row: a title update then a metadata update, both
   * under the ID given, the metadata update sent only after the title
   * update succeeded. When the run goes on, both were sent.
   */
  lemma SendCalls(s: Sheet, assetID: string, title: string, values: map<string, CsvDomain.FieldValues>, remote: Remote)
    ensures var r := Send(s, assetID, title, values, remote);
      |s.calls| < |r.calls| && r.calls[..|s.calls|] == s.calls && r.calls[|s.calls|] == TitleCall(assetID, title) &&
      forall k :: |s.calls| <= k < |r.calls| ==> r.calls[k].assetID == assetID
    ensures (CallsInPairs(s.calls, SkipBlank) && forall key :: key in values ==> Kept(SkipBlank, values[key])) ==>
              CallsInPairs(Send(s, assetID, title, values, remote).calls, SkipBlank)
    ensures var r := Send(s, assetID, title, values, remote);
      r.halt == Running ==> r.calls == s.calls + [TitleCall(assetID, title), MetadataCall(assetID, values)]
  {
  }

  /**
   * The calls of an accepted row: the title update and the metadata
   * update, in that order, all under the ID of the row's first column, and
   * no cell whose pieces are all blank. When the run goes on, one title
   * update was sent and the row's record is flagged as added.
   */
  lemma AcceptedCalls(s: Sheet, row: seq<string>, names: seq<string>, labels: seq<string>, remote: Remote)
    requires |row| >= 4
    ensures var r := AcceptedRow(s, row, names, labels, remote);
      |s.calls| <= |r.calls| && r.calls[..|s.calls|] == s.calls &&
      forall k :: |s.calls| <= k < |r.calls| ==> r.calls[k].assetID == row[0]
    ensures CallsInPairs(s.calls, SkipBlank) ==> CallsInPairs(AcceptedRow(s, row, names, labels, remote).calls, SkipBlank)
    ensures var r := AcceptedRow(s, row, names, labels, remote);
      r.halt == Running ==> TitleCalls(r.calls) == TitleCalls(s.calls) + 1 && r.recs[|s.recs|].added
  {
    var cells := CellsUpTo(row, names, labels, FirstMetadataColumn, |row|, SkipBlank);
    var s1 := s.(recs := s.recs + [RowRecord(row).(added := true, metadataValues := cells.values)]);
    if cells.CellsOk? {
      assert AcceptedRow(s, row, names, labels, remote) == Send(s1, row[0], row[3], cells.values, remote);
      CellsKept(row, names, labels, FirstMetadataColumn, |row|, SkipBlank);
      SendCalls(s1, row[0], row[3], cells.values, remote);
      TitleCallsAppend(s.calls, TitleCall(row[0], row[3]));
      TitleCallsAppend(s.calls + [TitleCall(row[0], row[3])], MetadataCall(row[0], cells.values));
      assert s.calls + [TitleCall(row[0], row[3]), MetadataCall(row[0], cells.values)]
          == s.calls + [TitleCall(row[0], row[3])] + [MetadataCall(row[0], cells.values)];
    }
  }

  /**
   * The calls of one row: none when both checks fail, otherwise those of
   * an accepted row. On a row after which the run goes on, the title
   * updates grow by exactly the records flagged as added.
   */
  lemma RowCalls(s: Sheet, row: seq<string>, names: seq<string>, labels: seq<string>, objects: seq<Object>, remote: Remote)
    requires |row| >= 4
    ensures var r := ReaderRow(s, row, names, labels, objects, remote);
      |s.calls| <= |r.calls| && r.calls[..|s.calls|] == s.calls &&
      (forall k :: |s.calls| <= k < |r.calls| ==> r.calls[k].assetID == row[0]) &&
      (!RowAccepted(row, objects, remote) ==> r.calls == s.calls)
    ensures CallsInPairs(s.calls, SkipBlank) ==> CallsInPairs(ReaderRow(s, row, names, labels, objects, remote).calls, SkipBlank)
    ensures var r := ReaderRow(s, row, names, labels, objects, remote);
      r.halt == Running ==>
        TitleCalls(r.calls) - TitleCalls(s.calls) == CsvDomain.CountAdded(r.recs) - CsvDomain.CountAdded(s.recs)
  {
    var r := ReaderRow(s, row, names, labels, objects, remote);
    assert r.recs == s.recs + [r.recs[|s.recs|]];
    CsvDomain.CountAddedAppend(s.recs, r.recs[|s.recs|]);
    if RowAccepted(row, objects, remote) {
      AcceptedCalls(s, row, names, labels, remote);
    }
  }

  /**
   * On every run the metadata update of an asset comes right after its
   * title update, and no cell whose pieces are all blank is sent; on a run
   * that completes, the title updates sent are exactly the records flagged
   * as added.
   */
  lemma {:induction false} RunCalls(matching: seq<seq<string>>, objects: seq<Object>, remote: Remote, i: nat)
    requires 2 <= i <= |matching|
    ensures CallsInPairs(SheetUpTo(matching, objects, remote, i).calls, SkipBlank)
    ensures SheetUpTo(matching, objects, remote, i).halt == Running ==>
      TitleCalls(SheetUpTo(matching, objects, remote, i).calls) == CsvDomain.CountAdded(SheetUpTo(matching, objects, remote, i).recs)
  {
    if i > 2 {
      RunCalls(matching, objects, remote, i - 1);
      var prev := SheetUpTo(matching, objects, remote, i - 1);
      if prev.halt == Running {
        var row := matching[i - 1];
        if |row| >= 4 {
          RowCalls(prev, row, matching[0], matching[1], objects, remote);
        }
      }
    }
  }

  /** On a completed run the successes and the failures add up to the number of files to update. */
  lemma CompletedRunCounts(matching: seq<seq<string>>, objects: seq<Object>, remote: Remote)
    requires |matching| >= 2
    requires SheetUpTo(matching, objects, remote, |matching|).halt == Running
    ensures var recs := SheetUpTo(matching, objects, remote, |matching|).recs;
      CsvDomain.CountAdded(recs) + CsvDomain.CountNotAdded(recs) == |matching| - 2
  {
    CsvDomain.CountsPartition(SheetUpTo(matching, objects, remote, |matching|).recs);
  }

  type Pages = Catalog<Contents>

  /**
   * `GetCollection(collectionID, pageNo)` on the shared collection `coll`:
   * the page read becomes the collection when there is none yet, and is
   * otherwise appended to its objects; the collection's own errors and page
   * count then decide the error and whether the next page is read.
   */
  function Fetch(cat: Pages, show: Json -> string, coll: Option<Contents>, id: string, pageNo: int): (r: (Option<Contents>, MaybeError))
    decreases PagesLeft(cat, id, pageNo)
    ensures r.1 == None ==> id in cat && r.0.Some?
    ensures coll.Some? ==>
      (r.0.Some? && r.0.value.errors == coll.value.errors && r.0.value.pages == coll.value.pages &&
       |coll.value.objects| <= |r.0.value.objects| && r.0.value.objects[..|coll.value.objects|] == coll.value.objects)
  {
    match Page(cat, id, pageNo)
    case Err(e) => (coll, Some(e))
    case Ok(page) =>
      var c := if coll.None? then page else coll.value.(objects := coll.value.objects + page.objects);
      if !IsNil(c.errors) then (Some(c), Some(show(c.errors)))
      else if c.pages > 1 && c.pages > pageNo then
        var r := Fetch(cat, show, Some(c), id, pageNo + 1);
        assert r.0.value.objects[..|c.objects|] == c.objects;
        assert coll.Some? ==>
          r.0.value.objects[..|coll.value.objects|] == r.0.value.objects[..|c.objects|][..|coll.value.objects|];
        r
      else (Some(c), None)
  }

  /**
   * A sub-collection read into a collection that is already there is paged
   * by the first collection's page count, and its own errors are never
   * looked at: when the first collection reports a single page and no
   * error, only page 1 of the sub-collection is read, and the call succeeds
   * whatever that page reports.
   */
  lemma SubCollectionReadsOnePage(cat: Pages, show: Json -> string, root: Contents, id: string)
    requires Page(cat, id, 1).Ok? && IsNil(root.errors) && root.pages <= 1
    ensures Fetch(cat, show, Some(root), id, 1) == (Some(root.(objects := root.objects + Page(cat, id, 1).value.objects)), None)
  {
  }

  /** Where a walk stands: the shared collection, the assets gathered, the two visited sets, and the collections descended into. */
  datatype Walk = Walk(coll: Option<Contents>, assets: seq<Object>, assetsSeen: set<string>, collectionsSeen: set<string>,
                       descents: seq<string>)

  /**
   * The loop of `ProcessObjects` from position i: a new asset is appended
   * and marked; an unvisited collection is read into the shared collection,
   * and once that succeeds it is marked and the whole shared collection is
   * walked before the loop goes on; a collection whose read fails is
   * skipped.
   */
  function WalkFrom(cat: Pages, show: Json -> string, w: Walk, objects: seq<Object>, i: nat): (r: Walk)
    requires i <= |objects|
    decreases |Unvisited(cat, w.collectionsSeen)|, |objects| - i
    ensures w.collectionsSeen <= r.collectionsSeen
  {
    if i == |objects| then w
    else
      var o := objects[i];
      if o.objectType == "assets" then
        if o.id !in w.assetsSeen then WalkFrom(cat, show, w.(assets := w.assets + [o], assetsSeen := w.assetsSeen + {o.id}), objects, i + 1)
        else WalkFrom(cat, show, w, objects, i + 1)
      else if o.objectType == "collections" && o.id !in w.collectionsSeen then
        var f := Fetch(cat, show, w.coll, o.id, 1);
        if f.1.Some? then WalkFrom(cat, show, w.(coll := f.0), objects, i + 1)
        else
          MarkShrinks(cat, w.collectionsSeen, o.id);
          var inner := WalkFrom(cat, show, w.(coll := f.0, collectionsSeen := w.collectionsSeen + {o.id}, descents := w.descents + [o.id]),
                                f.0.value.objects, 0);
          MoreVisitedFewerLeft(cat, w.collectionsSeen, inner.collectionsSeen);
          WalkFrom(cat, show, inner, objects, i + 1)
      else WalkFrom(cat, show, w, objects, i + 1)
  }

  /** No two objects of the list share an ID. */
  predicate DistinctIds(objs: seq<Object>)
  {
    forall j, k :: 0 <= j < k < |objs| ==> objs[j].id != objs[k].id
  }

  /** Every object of the list has its ID in `ids`. */
  predicate IdsIn(objs: seq<Object>, ids: set<string>)
  {
    forall j :: 0 <= j < |objs| ==> objs[j].id in ids
  }

  /** No ID occurs twice in the list. */
  predicate NoRepeats(ids: seq<string>)
  {
    forall j, k :: 0 <= j < k < |ids| ==> ids[j] != ids[k]
  }

  /** The gathered assets are distinct and all marked in the assets map. */
  predicate Deduplicated(w: Walk)
  {
    DistinctIds(w.assets) && IdsIn(w.assets, w.assetsSeen)
  }

  /**
   * From `w` to `r` the assets map only grew, and the assets list only had
   * assets-typed objects appended whose IDs `w` had not marked.
   */
  predicate GrowsAssets(w: Walk, r: Walk)
  {
    w.assetsSeen <= r.assetsSeen && |w.assets| <= |r.assets| && r.assets[..|w.assets|] == w.assets &&
    forall j :: |w.assets| <= j < |r.assets| ==> r.assets[j].objectType == "assets" && r.assets[j].id !in w.assetsSeen
  }

  lemma GrowsAssetsTrans(a: Walk, b: Walk, c: Walk)
    requires GrowsAssets(a, b) && GrowsAssets(b, c)
    ensures GrowsAssets(a, c)
  {
    assert c.assets[..|a.assets|] == c.assets[..|b.assets|][..|a.assets|];
    forall j | |a.assets| <= j < |c.assets|
      ensures c.assets[j].objectType == "assets" && c.assets[j].id !in a.assetsSeen
    {
      if j < |b.assets| {
        assert c.assets[j] == c.assets[..|b.assets|][j];
      }
    }
  }

  /** Gathering an asset whose ID is not marked yet, and marking it. */
  lemma GatherKeepsDeduplicated(w: Walk, o: Object)
    requires Deduplicated(w) && o.objectType == "assets" && o.id !in w.assetsSeen
    ensures var next := w.(assets := w.assets + [o], assetsSeen := w.assetsSeen + {o.id});
      Deduplicated(next) && GrowsAssets(w, next)
  {
    var next := w.(assets := w.assets + [o], assetsSeen := w.assetsSeen + {o.id});
    assert next.assets[..|w.assets|] == w.assets;
  }

  /**
   * The assets map deduplicates: starting from distinct assets all marked
   * as seen, the walk only appends assets-typed objects not seen before,
   * so the list stays distinct and marked and begins with the assets it
   * had.
   */
  lemma {:induction false} WalkDeduplicates(cat: Pages, show: Json -> string, w: Walk, objects: seq<Object>, i: nat)
    requires i <= |objects|
    requires Deduplicated(w)
    decreases |Unvisited(cat, w.collectionsSeen)|, |objects| - i, 1
    ensures Deduplicated(WalkFrom(cat, show, w, objects, i)) && GrowsAssets(w, WalkFrom(cat, show, w, objects, i))
  {
    if i == |objects| {
      assert w.assets[..|w.assets|] == w.assets;
    } else {
      var o := objects[i];
      if o.objectType == "assets" {
        if o.id !in w.assetsSeen {
          var next := w.(assets := w.assets + [o], assetsSeen := w.assetsSeen + {o.id});
          GatherKeepsDeduplicated(w, o);
          WalkDeduplicates(cat, show, next, objects, i + 1);
          GrowsAssetsTrans(w, next, WalkFrom(cat, show, w, objects, i));
        } else {
          WalkDeduplicates(cat, show, w, objects, i + 1);
        }
      } else if o.objectType == "collections" && o.id !in w.collectionsSeen {
        if Fetch(cat, show, w.coll, o.id, 1).1.Some? {
          WalkDeduplicates(cat, show, w.(coll := Fetch(cat, show, w.coll, o.id, 1).0), objects, i + 1);
        } else {
          DescentDeduplicates(cat, show, w, objects, i);
        }
      } else {
        WalkDeduplicates(cat, show, w, objects, i + 1);
      }
    }
  }

  /** `WalkDeduplicates` where the walk descends into the collection at position i. */
  lemma {:induction false} DescentDeduplicates(cat: Pages, show: Json -> string, w: Walk, objects: seq<Object>, i: nat)
    requires i < |objects| && objects[i].objectType == "collections" && objects[i].id !in w.collectionsSeen
    requires Fetch(cat, show, w.coll, objects[i].id, 1).1.None?
    requires Deduplicated(w)
    decreases |Unvisited(cat, w.collectionsSeen)|, |objects| - i, 0
    ensures Deduplicated(WalkFrom(cat, show, w, objects, i)) && GrowsAssets(w, WalkFrom(cat, show, w, objects, i))
  {
    var o := objects[i];
    var f := Fetch(cat, show, w.coll, o.id, 1);
    MarkShrinks(cat, w.collectionsSeen, o.id);
    var entered := w.(coll := f.0, collectionsSeen := w.collectionsSeen + {o.id}, descents := w.descents + [o.id]);
    WalkDeduplicates(cat, show, entered, f.0.value.objects, 0);
    var inner := WalkFrom(cat, show, entered, f.0.value.objects, 0);
    MoreVisitedFewerLeft(cat, entered.collectionsSeen, inner.collectionsSeen);
    WalkDeduplicates(cat, show, inner, objects, i + 1);
    assert WalkFrom(cat, show, w, objects, i) == WalkFrom(cat, show, inner, objects, i + 1);
    GrowsAssetsTrans(w, inner, WalkFrom(cat, show, inner, objects, i + 1));
  }

  /** Every collection descended into is marked, and none twice. */
  predicate DescentsMarked(w: Walk)
  {
    NoRepeats(w.descents) && forall j :: 0 <= j < |w.descents| ==> w.descents[j] in w.collectionsSeen
  }

  /**
   * From `w` to `r` the descents only had collections appended that the
   * catalog lists and `w` had not marked, and the collections marked on
   * the way are exactly those appended.
   */
  ghost predicate GrowsDescents(cat: Pages, w: Walk, r: Walk)
  {
    |w.descents| <= |r.descents| && r.descents[..|w.descents|] == w.descents &&
    (forall j :: |w.descents| <= j < |r.descents| ==> r.descents[j] !in w.collectionsSeen && r.descents[j] in cat) &&
    (forall id :: id in r.collectionsSeen - w.collectionsSeen <==> id in r.descents[|w.descents|..])
  }

  lemma GrowsDescentsTrans(cat: Pages, a: Walk, b: Walk, c: Walk)
    requires a.collectionsSeen <= b.collectionsSeen <= c.collectionsSeen
    requires GrowsDescents(cat, a, b) && GrowsDescents(cat, b, c)
    ensures GrowsDescents(cat, a, c)
  {
    assert c.descents[..|a.descents|] == c.descents[..|b.descents|][..|a.descents|];
    assert c.descents[|a.descents|..] == b.descents[|a.descents|..] + c.descents[|b.descents|..];
    forall j | |a.descents| <= j < |c.descents|
      ensures c.descents[j] !in a.collectionsSeen && c.descents[j] in cat
    {
      if j < |b.descents| {
        assert c.descents[j] == c.descents[..|b.descents|][j];
      }
    }
  }

  /**
   * Each collection is descended into at most once: it is marked as
   * visited exactly when its contents were read and the walk descends into
   * it, so the collections marked during the walk are exactly those it
   * descended into, none of them was marked before, and none is descended
   * into twice.
   */
  lemma {:induction false} WalkDescendsOnce(cat: Pages, show: Json -> string, w: Walk, objects: seq<Object>, i: nat)
    requires i <= |objects|
    requires DescentsMarked(w)
    decreases |Unvisited(cat, w.collectionsSeen)|, |objects| - i, 1
    ensures DescentsMarked(WalkFrom(cat, show, w, objects, i))
    ensures GrowsDescents(cat, w, WalkFrom(cat, show, w, objects, i))
  {
    if i == |objects| {
      assert w.descents[..|w.descents|] == w.descents;
    } else {
      var o := objects[i];
      if o.objectType == "assets" {
        if o.id !in w.assetsSeen {
          WalkDescendsOnce(cat, show, w.(assets := w.assets + [o], assetsSeen := w.assetsSeen + {o.id}), objects, i + 1);
        } else {
          WalkDescendsOnce(cat, show, w, objects, i + 1);
        }
      } else if o.objectType == "collections" && o.id !in w.collectionsSeen {
        if Fetch(cat, show, w.coll, o.id, 1).1.Some? {
          WalkDescendsOnce(cat, show, w.(coll := Fetch(cat, show, w.coll, o.id, 1).0), objects, i + 1);
        } else {
          DescentOnce(cat, show, w, objects, i);
        }
      } else {
        WalkDescendsOnce(cat, show, w, objects, i + 1);
      }
    }
  }

  /** `WalkDescendsOnce` where the walk descends into the collection at position i. */
  lemma {:induction false} DescentOnce(cat: Pages, show: Json -> string, w: Walk, objects: seq<Object>, i: nat)
    requires i < |objects| && objects[i].objectType == "collections" && objects[i].id !in w.collectionsSeen
    requires Fetch(cat, show, w.coll, objects[i].id, 1).1.None?
    requires DescentsMarked(w)
    decreases |Unvisited(cat, w.collectionsSeen)|, |objects| - i, 0
    ensures DescentsMarked(WalkFrom(cat, show, w, objects, i))
    ensures GrowsDescents(cat, w, WalkFrom(cat, show, w, objects, i))
  {
    var o := objects[i];
    var f := Fetch(cat, show, w.coll, o.id, 1);
    MarkShrinks(cat, w.collectionsSeen, o.id);
    var entered := w.(coll := f.0, collectionsSeen := w.collectionsSeen + {o.id}, descents := w.descents + [o.id]);
    assert DescentsMarked(entered);
    assert GrowsDescents(cat, w, entered) by {
      assert entered.descents[|w.descents|..] == [o.id];
    }
    WalkDescendsOnce(cat, show, entered, f.0.value.objects, 0);
    var inner := WalkFrom(cat, show, entered, f.0.value.objects, 0);
    GrowsDescentsTrans(cat, w, entered, inner);
    MoreVisitedFewerLeft(cat, entered.collectionsSeen, inner.collectionsSeen);
    WalkDescendsOnce(cat, show, inner, objects, i + 1);
    assert WalkFrom(cat, show, w, objects, i) == WalkFrom(cat, show, inner, objects, i + 1);
    GrowsDescentsTrans(cat, w, inner, WalkFrom(cat, show, inner, objects, i + 1));
  }

  /**
   * Every assets-typed object of the list from position i on has its ID
   * in the assets map when the walk ends, and the map never loses an ID:
   * with the assets map starting out describing the assets list
   * (`Deduplicated`), every asset of the list ends up gathered exactly once.
   */
  lemma {:induction false} WalkCovers(cat: Pages, show: Json -> string, w: Walk, objects: seq<Object>, i: nat)
    requires i <= |objects|
    decreases |Unvisited(cat, w.collectionsSeen)|, |objects| - i, 1
    ensures Covered(w, WalkFrom(cat, show, w, objects, i), objects, i)
  {
    if i < |objects| {
      var o := objects[i];
      if o.objectType == "assets" {
        if o.id !in w.assetsSeen {
          WalkCovers(cat, show, w.(assets := w.assets + [o], assetsSeen := w.assetsSeen + {o.id}), objects, i + 1);
        } else {
          WalkCovers(cat, show, w, objects, i + 1);
        }
      } else if o.objectType == "collections" && o.id !in w.collectionsSeen {
        if Fetch(cat, show, w.coll, o.id, 1).1.Some? {
          WalkCovers(cat, show, w.(coll := Fetch(cat, show, w.coll, o.id, 1).0), objects, i + 1);
        } else {
          DescentCovers(cat, show, w, objects, i);
        }
      } else {
        WalkCovers(cat, show, w, objects, i + 1);
      }
    }
  }

  /** The assets map of `r` holds that of `w` and the ID of every assets-typed object from position i on. */
  predicate Covered(w: Walk, r: Walk, objects: seq<Object>, i: nat)
  {
    w.assetsSeen <= r.assetsSeen &&
    forall k :: i <= k < |objects| && objects[k].objectType == "assets" ==> objects[k].id in r.assetsSeen
  }

  /** `WalkCovers` where the walk descends into the collection at position i. */
  lemma {:induction false} DescentCovers(cat: Pages, show: Json -> string, w: Walk, objects: seq<Object>, i: nat)
    requires i < |objects| && objects[i].objectType == "collections" && objects[i].id !in w.collectionsSeen
    requires Fetch(cat, show, w.coll, objects[i].id, 1).1.None?
    decreases |Unvisited(cat, w.collectionsSeen)|, |objects| - i, 0
    ensures Covered(w, WalkFrom(cat, show, w, objects, i), objects, i)
  {
    var o := objects[i];
    var f := Fetch(cat, show, w.coll, o.id, 1);
    MarkShrinks(cat, w.collectionsSeen, o.id);
    var entered := w.(coll := f.0, collectionsSeen := w.collectionsSeen + {o.id}, descents := w.descents + [o.id]);
    WalkCovers(cat, show, entered, f.0.value.objects, 0);
    var inner := WalkFrom(cat, show, entered, f.0.value.objects, 0);
    MoreVisitedFewerLeft(cat, entered.collectionsSeen, inner.collectionsSeen);
    WalkCovers(cat, show, inner, objects, i + 1);
    assert WalkFrom(cat, show, w, objects, i) == WalkFrom(cat, show, inner, objects, i + 1);
  }

  /** The client state the walk reads and updates: the shared collection and the assets gathered. */
  class Client {
    var collection: Option<Contents>
    var assets: seq<Object>

    constructor()
      ensures collection == None && assets == []
    {
      collection := None;
      assets := [];
    }

    /** `GetCollection(collectionID, pageNo)`: the page recursion on the shared collection. */
    method GetCollection(cat: Pages, show: Json -> string, collectionID: string, pageNo: int) returns (err: MaybeError)
      modifies this
      decreases PagesLeft(cat, collectionID, pageNo)
      ensures (collection, err) == Fetch(cat, show, old(collection), collectionID, pageNo)
      ensures assets == old(assets)
    {
      var page := Page(cat, collectionID, pageNo);
      if page.Err? {
        return Some(page.error);
      }
      if collection.Some? {
        collection := Some(collection.value.(objects := collection.value.objects + page.value.objects));
      } else {
        collection := Some(page.value);
      }
      if !IsNil(collection.value.errors) {
        return Some(show(collection.value.errors));
      }
      if collection.value.pages > 1 && collection.value.pages > pageNo {
        err := GetCollection(cat, show, collectionID, pageNo + 1);
        if err != None {
          return err;
        }
      }
      return None;
    }

    /**
     * `ProcessObjects(c, assetsMap, collectionsMap)` over the objects `c`
     * held when the loop began. The error it could pass up is never set.
     * `descents` and `log` are the collections descended into before and
     * after the call, kept for the proofs only.
     */
    method ProcessObjects(cat: Pages, show: Json -> string, objects: seq<Object>, visited: Visited, ghost descents: seq<string>)
      returns (err: MaybeError, ghost log: seq<string>)
      modifies this, visited
      decreases |Unvisited(cat, visited.collections)|
      ensures Walk(collection, assets, visited.assets, visited.collections, log)
              == WalkFrom(cat, show, Walk(old(collection), old(assets), old(visited.assets), old(visited.collections), descents), objects, 0)
      ensures err == None
    {
      ghost var target := WalkFrom(cat, show, Walk(collection, assets, visited.assets, visited.collections, descents), objects, 0);
      ghost var start := visited.collections;
      log := descents;
      var i := 0;
      while i < |objects|
        invariant i <= |objects|
        invariant start <= visited.collections
        invariant target == WalkFrom(cat, show, Walk(collection, assets, visited.assets, visited.collections, log), objects, i)
      {
        var o := objects[i];
        if o.objectType == "assets" {
          if o.id !in visited.assets {
            assets := assets + [o];
            visited.assets := visited.assets + {o.id};
          }
        } else if o.objectType == "collections" {
          if o.id !in visited.collections {
            var e := GetCollection(cat, show, o.id, 1);
            if e == None {
              MarkShrinks(cat, visited.collections, o.id);
              MoreVisitedFewerLeft(cat, start, visited.collections);
              visited.collections := visited.collections + {o.id};
              var e2;
              e2, log := ProcessObjects(cat, show, collection.value.objects, visited, log + [o.id]);
              if e2 != None {
                return e2, log;
              }
            }
          }
        }
        i := i + 1;
      }
      return None, log;
    }
  }
}
