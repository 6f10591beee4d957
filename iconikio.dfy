/**
 * pkg/iconikio: the three-column import engine (`UpdateIconik` with
 * `updateTitle` and `updateMetadata`), the two record checks that rewrite the
 * record they check (`validateFilename`, `validateAssetID`) and
 * `IconikStatusCode`. `SchemaValidator` is the label-keyed table of
 * `LabelRules`.
 *
 * The client keeps the imported records as a list of pointers; a record is
 * modelled by its position in `csvMetadata`, so a write through the local
 * pointer and a write through `CSVMetadata[index]` reach the same element
 * exactly when the positions agree.
 */
module Iconikio {
  import opened Wrappers
  import opened IconikioTypes
  import opened AssetLookup
  import CsvDomain
  import Text
  import LabelRules
  import opened Runs

  type Record = CsvDomain.Record

  /**
   * `IconikStatusCode`: 400, 404 and 401 map to three distinct errors; every
   * other status, 403, 429 and 5xx included, maps to nil.
   */
  function IconikStatusCode(status: int): (r: MaybeError)
    ensures r.Some? <==> status == 400 || status == 404 || status == 401
    ensures status == 400 ==> r == Some("status bad request")
    ensures status == 404 ==> r == Some("status not found")
    ensures status == 401 ==> r == Some("unauthorised- please check your App ID and Auth Token are correct")
  {
    if status == 400 then Some("status bad request")
    else if status == 404 then Some("status not found")
    else if status == 401 then Some("unauthorised- please check your App ID and Auth Token are correct")
    else None
  }

  /** The three errors `IconikStatusCode` can return are pairwise different. */
  lemma StatusErrorsDistinct()
    ensures IconikStatusCode(400) != IconikStatusCode(404)
    ensures IconikStatusCode(400) != IconikStatusCode(401)
    ensures IconikStatusCode(404) != IconikStatusCode(401)
  {
    assert |"status bad request"| == 18 && |"status not found"| == 16;
    assert |"unauthorised- please check your App ID and Auth Token are correct"| > 18;
  }

  /** The objects as lookup entries: ID and original file names. */
  function EntriesOf(objects: seq<Object>): (r: seq<Entry>)
    ensures |r| == |objects|
    ensures forall k :: 0 <= k < |r| ==> r[k].id == objects[k].id && |r[k].fileNames| == |objects[k].files|
    ensures forall k, i :: 0 <= k < |r| && 0 <= i < |r[k].fileNames| ==> r[k].fileNames[i] == objects[k].files[i].originalName
  {
    seq(|objects|, k requires 0 <= k < |objects| =>
      Entry(objects[k].id, seq(|objects[k].files|, i requires 0 <= i < |objects[k].files| => objects[k].files[i].originalName)))
  }

  /** The object has a file with this original name. */
  predicate Owns(o: Object, name: string)
  {
    exists i :: 0 <= i < |o.files| && o.files[i].originalName == name
  }

  /** The error `validateFilename` returns when no object owns the file. */
  function NoSuchFile(name: string): string
  {
    "file " + name + " does not exist in given collection id"
  }

  /**
   * What `validateFilename` does to a record, given the outcome of fetching
   * and decoding the collection: a fetch or decode error is returned with
   * the record unchanged; otherwise the record takes the ID of the first
   * object owning a file of its original name, or an error names the file.
   */
  function FilenameCheck(rec: Record, collection: Result<seq<Object>>): (r: (MaybeError, Record))
    ensures r.0 != None ==> r.1 == rec
  {
    match collection
    case Err(e) => (Some(e), rec)
    case Ok(objects) =>
      match FirstOwner(EntriesOf(objects), rec.originalName)
      case Some(k) => (None, rec.(id := objects[k].id))
      case None => (Some(NoSuchFile(rec.originalName)), rec)
  }

  /**
   * `validateFilename` on a fetched collection: it passes exactly when some
   * object owns a file of the record's original name, and then the record
   * takes the ID of the first such object and nothing else changes; a fetch
   * error is returned as is.
   */
  lemma FilenameCheckSpec(rec: Record, collection: Result<seq<Object>>)
    ensures collection.Err? ==> FilenameCheck(rec, collection) == (Some(collection.error), rec)
    ensures collection.Ok? ==>
      (FilenameCheck(rec, collection).0 == None <==> exists k :: 0 <= k < |collection.value| && Owns(collection.value[k], rec.originalName))
    ensures collection.Ok? && FilenameCheck(rec, collection).0 == None ==> exists k :: (0 <= k < |collection.value| &&
      Owns(collection.value[k], rec.originalName) && FilenameCheck(rec, collection).1 == rec.(id := collection.value[k].id) &&
      forall j :: 0 <= j < k ==> !Owns(collection.value[j], rec.originalName))
    ensures collection.Ok? && FilenameCheck(rec, collection).0 != None ==>
      FilenameCheck(rec, collection) == (Some(NoSuchFile(rec.originalName)), rec)
  {
    if collection.Ok? {
      var objects := collection.value;
      var entries := EntriesOf(objects);
      match FirstOwner(entries, rec.originalName)
      case Some(k) =>
        assert Owns(objects[k], rec.originalName) by {
          var i :| 0 <= i < |entries[k].fileNames| && entries[k].fileNames[i] == rec.originalName;
          assert objects[k].files[i].originalName == rec.originalName;
        }
        forall j, i | 0 <= j < k && 0 <= i < |objects[j].files|
          ensures objects[j].files[i].originalName != rec.originalName
        {
          assert entries[j].fileNames[i] == objects[j].files[i].originalName;
        }
      case None =>
        forall j, i | 0 <= j < |objects| && 0 <= i < |objects[j].files|
          ensures objects[j].files[i].originalName != rec.originalName
        {
          assert entries[j].fileNames[i] == objects[j].files[i].originalName;
        }
    }
  }

  /** The error `validateAssetID` returns when no object with the ID has a file. */
  function NotInCollection(id: string): string
  {
    "asset " + id + " does not exist in given collection id"
  }

  /**
   * What `validateAssetID` does to a record. `assetStatus(id)` is the outcome
   * of fetching the asset: a transport error, or the status code received.
   * A non-UUID ID is rejected before the fetch; a transport error is
   * returned; 401 and 404 give errors naming the ID; otherwise the record
   * takes the original name of the first file of the first object with its
   * ID that has files, or an error says the asset is not in the collection.
   */
  function AssetIDCheck(rec: Record, assets: seq<Object>, isUuid: string -> bool, assetStatus: string -> Result<int>): (r: (MaybeError, Record))
    ensures r.0 != None ==> r.1 == rec
  {
    var id := rec.id;
    if !isUuid(id) then (Some("not a valid asset ID"), rec)
    else match assetStatus(id)
      case Err(e) => (Some(e), rec)
      case Ok(status) =>
        if status == 401 then (Some("401: unauthorized, please check your asset id " + id + " is correct"), rec)
        else if status == 404 then (Some("404: asset " + id + " not found on iconik servers"), rec)
        else
          var entries := EntriesOf(assets);
          match FirstWithFiles(entries, id)
          case Some(k) => (None, rec.(originalName := assets[k].files[0].originalName))
          case None => (Some(NotInCollection(id)), rec)
  }

  /**
   * `validateAssetID` passes exactly when the ID is a UUID, the fetch
   * received a status other than 401 and 404, and some object with the ID
   * has a file; the record then takes the original name of the first file of
   * the first such object. A non-UUID ID, a 401 and a 404 each give their
   * own error.
   */
  lemma AssetIDCheckSpec(rec: Record, assets: seq<Object>, isUuid: string -> bool, assetStatus: string -> Result<int>)
    ensures var r := AssetIDCheck(rec, assets, isUuid, assetStatus);
      r.0 == None <==>
        isUuid(rec.id) && assetStatus(rec.id).Ok? && assetStatus(rec.id).value != 401 && assetStatus(rec.id).value != 404 &&
        exists k :: 0 <= k < |assets| && assets[k].id == rec.id && |assets[k].files| > 0
    ensures var r := AssetIDCheck(rec, assets, isUuid, assetStatus);
      r.0 == None ==> exists k :: (0 <= k < |assets| && assets[k].id == rec.id && |assets[k].files| > 0 &&
        r.1 == rec.(originalName := assets[k].files[0].originalName) &&
        forall j :: 0 <= j < k ==> assets[j].id != rec.id || |assets[j].files| == 0)
    ensures !isUuid(rec.id) ==> AssetIDCheck(rec, assets, isUuid, assetStatus).0 == Some("not a valid asset ID")
    ensures isUuid(rec.id) && assetStatus(rec.id) == Ok(401) ==>
      AssetIDCheck(rec, assets, isUuid, assetStatus).0 == Some("401: unauthorized, please check your asset id " + rec.id + " is correct")
    ensures isUuid(rec.id) && assetStatus(rec.id) == Ok(404) ==>
      AssetIDCheck(rec, assets, isUuid, assetStatus).0 == Some("404: asset " + rec.id + " not found on iconik servers")
  {
    if isUuid(rec.id) && assetStatus(rec.id).Ok? {
      var entries := EntriesOf(assets);
      match FirstWithFiles(entries, rec.id)
      case Some(k) =>
      case None =>
        forall k | 0 <= k < |assets| && assets[k].id == rec.id
          ensures |assets[k].files| == 0
        {
          assert entries[k].id == rec.id;
        }
    }
  }

  /**
   * The outcome of the title or metadata update of one record: `Proceed`
   * lets the run continue; `Stop` ends it with an error; `Crash` is the nil
   * dereference of a response that was never received.
   */
  datatype UpdateOutcome = Proceed | Stop(err: string) | Crash

  /**
   * `updateTitle`: the status code is read before the request error is
   * looked at, so a transport error (no response) dereferences nil. Any
   * received status, 200 or not, returns the request error, which is nil.
   */
  function TitleOutcome(response: Result<int>): (r: UpdateOutcome)
    ensures r == Crash <==> response.Err?
    ensures r != Crash ==> r == Proceed
  {
    match response
    case Err(_) => Crash
    case Ok(_) => Proceed
  }

  /**
   * `updateMetadata`: a transport error is returned; a received status,
   * 200 or not, returns the request error, which is nil.
   */
  function MetadataOutcome(response: Result<int>): (r: UpdateOutcome)
    ensures response.Err? ==> r == Stop(response.error)
    ensures response.Ok? ==> r == Proceed
  {
    match response
    case Err(e) => Stop(e)
    case Ok(_) => Proceed
  }

  /**
   * The remote side of a run: the collection fetch of `validateFilename`,
   * the asset fetch of `validateAssetID`, uuid.Parse, and the PATCH of a
   * title and PUT of metadata values (by asset ID and payload), each giving
   * a transport error or the status received.
   */
  datatype Remote = Remote(
    collection: Result<seq<Object>>,
    assetStatus: string -> Result<int>,
    isUuid: string -> bool,
    titleCall: (string, string) -> Result<int>,
    metadataCall: (string, map<string, CsvDomain.FieldValues>) -> Result<int>)

  /** The records after some rows, the updates sent so far in order, and how the run stands. */
  datatype Run = Run(recs: seq<Record>, calls: seq<Call>, halt: Halt)

  /**
   * Whether a row's record ends up flagged as added: the asset-ID check runs
   * on the fresh record, the filename check on what that check left, and
   * the record is added unless both fail.
   */
  predicate RowAdded(row: seq<string>, assets: seq<Object>, remote: Remote)
    requires |row| >= 3
  {
    var a := AssetIDCheck(CsvDomain.NewRecord(row[0], row[1], "", row[2]), assets, remote.isUuid, remote.assetStatus);
    var f := FilenameCheck(a.1, remote.collection);
    a.0 == None || f.0 == None
  }

  /**
   * The start of a data row: a new record is appended, then both checks
   * run on the record at position `k`. The flag says whether both failed.
   */
  function AppendAndCheck(recs: seq<Record>, row: seq<string>, k: nat, assets: seq<Object>, remote: Remote): (r: (seq<Record>, bool))
    requires |row| >= 3 && k <= |recs|
    ensures |r.0| == |recs| + 1
    ensures forall j :: 0 <= j < |recs| && j != k ==> r.0[j] == recs[j]
    ensures k == |recs| ==> r.1 == !RowAdded(row, assets, remote)
    ensures k < |recs| ==> r.0[|recs|] == CsvDomain.NewRecord(row[0], row[1], "", row[2])
  {
    var recs1 := recs + [CsvDomain.NewRecord(row[0], row[1], "", row[2])];
    var a := AssetIDCheck(recs1[k], assets, remote.isUuid, remote.assetStatus);
    var recs2 := recs1[k := a.1];
    var f := FilenameCheck(recs2[k], remote.collection);
    (recs2[k := f.1], a.0.Some? && f.0.Some?)
  }

  /**
   * The rest of a data row whose checks did not both fail: the record at
   * `p` is flagged as added and given its metadata cells, then the title and
   * the metadata of record `k` are sent.
   */
  function FinishRow(recs: seq<Record>, calls: seq<Call>, p: nat, row: seq<string>, names: seq<string>, labels: seq<string>,
                     k: nat, remote: Remote): (r: Run)
    requires p < |recs| && k < |recs| && |row| >= 3
    ensures |r.recs| == |recs|
    ensures forall j :: 0 <= j < |recs| && j != p ==> r.recs[j] == recs[j]
    ensures r.recs[p].added && r.recs[p].id == recs[p].id && r.recs[p].originalName == recs[p].originalName
    ensures r.recs[p].title == recs[p].title
  {
    var recs4 := recs[p := recs[p].(added := true)];
    match CellsUpTo(row, names, labels, FirstMetadataColumn, |row|, SkipBlank)
    case CellsCrashed(v) => Run(recs4[p := recs4[p].(metadataValues := v)], calls, Crashed)
    case CellsFailed(v, e) => Run(recs4[p := recs4[p].(metadataValues := v)], calls, Failed(e))
    case CellsOk(v) => SendUpdates(recs4[p := recs4[p].(metadataValues := v)], calls, k, remote)
  }

  /**
   * One data row: a new record is appended at position |recs|; both checks
   * run on the record at position `k` (the row number counted from the
   * first data row); unless both fail, the new record is flagged as added,
   * its metadata cells are read, and the title and then the metadata of
   * record `k` are sent.
   */
  function RowStep(recs: seq<Record>, calls: seq<Call>, row: seq<string>, names: seq<string>, labels: seq<string>, k: nat,
                   assets: seq<Object>, remote: Remote): (r: Run)
    requires k <= |recs|
    ensures |row| < 3 ==> r == Run(recs, calls, Crashed)
    ensures |row| >= 3 ==> |r.recs| == |recs| + 1
  {
    if |row| < 3 then Run(recs, calls, Crashed)
    else
      var c := AppendAndCheck(recs, row, k, assets, remote);
      if c.1 then Run(c.0, calls, Running)
      else FinishRow(c.0, calls, |recs|, row, names, labels, k, remote)
  }

  /**
   * The title update and then, unless the title update dereferenced a
   * response it never received, the metadata update of record `k`: the
   * title call comes first, and after a crash no metadata call is made.
   */
  function SendUpdates(recs: seq<Record>, calls: seq<Call>, k: nat, remote: Remote): (r: Run)
    requires k < |recs|
    ensures r.recs == recs
    ensures r.halt == Crashed <==> remote.titleCall(recs[k].id, recs[k].title).Err?
    ensures r.halt == Crashed ==> r.calls == calls + [TitleCall(recs[k].id, recs[k].title)]
    ensures r.halt != Crashed ==>
      r.calls == calls + [TitleCall(recs[k].id, recs[k].title), MetadataCall(recs[k].id, recs[k].metadataValues)]
    ensures r.halt.Failed? <==> r.halt != Crashed && remote.metadataCall(recs[k].id, recs[k].metadataValues).Err?
    ensures r.halt.Failed? ==>
      remote.metadataCall(recs[k].id, recs[k].metadataValues).Err? &&
      r.halt == Failed(remote.metadataCall(recs[k].id, recs[k].metadataValues).error)
  {
    var title := TitleCall(recs[k].id, recs[k].title);
    if TitleOutcome(remote.titleCall(recs[k].id, recs[k].title)) == Crash then Run(recs, calls + [title], Crashed)
    else
      var sent := calls + [title, MetadataCall(recs[k].id, recs[k].metadataValues)];
      var m := MetadataOutcome(remote.metadataCall(recs[k].id, recs[k].metadataValues));
      if m.Stop? then Run(recs, sent, Failed(m.err)) else Run(recs, sent, Running)
  }

  /** The rows 2 .. i-1 of the matched table, processed in order until the run stops. */
  function RunUpTo(recs0: seq<Record>, matching: seq<seq<string>>, assets: seq<Object>, remote: Remote, i: nat): (r: Run)
    requires 2 <= i <= |matching|
    ensures r.halt == Running ==> |r.recs| == |recs0| + (i - 2)
    ensures |recs0| <= |r.recs| <= |recs0| + (i - 2)
  {
    if i == 2 then Run(recs0, [], Running)
    else
      var prev := RunUpTo(recs0, matching, assets, remote, i - 1);
      if prev.halt != Running then prev
      else RowStep(prev.recs, prev.calls, matching[i - 1], matching[0], matching[1], i - 3, assets, remote)
  }

  /** The first metadata column of a matched row. */
  const FirstMetadataColumn := 3

  /** The headers the file must open with. */
  const ExpectedHeaders: seq<string> := ["id", "original_name", "title"]

  /** The client state a run reads and updates. */
  class Iconik {
    var csvMetadata: seq<Record>
    var csvFilesToUpdate: int
    var assets: seq<Object>

    constructor(assets: seq<Object>)
      ensures csvMetadata == [] && csvFilesToUpdate == 0 && this.assets == assets
    {
      csvMetadata := [];
      csvFilesToUpdate := 0;
      this.assets := assets;
    }

    /** `validateFilename(index)`: rewrites the ID of record `index` on success. */
    method ValidateFilename(index: nat, collection: Result<seq<Object>>) returns (err: MaybeError)
      requires index < |csvMetadata|
      modifies this
      ensures err == FilenameCheck(old(csvMetadata[index]), collection).0
      ensures csvMetadata == old(csvMetadata)[index := FilenameCheck(old(csvMetadata[index]), collection).1]
      ensures assets == old(assets) && csvFilesToUpdate == old(csvFilesToUpdate)
    {
      var objects;
      match collection {
        case Err(e) => return Some(e);
        case Ok(v) => objects := v;
      }
      var name := csvMetadata[index].originalName;
      var o := 0;
      while o < |objects|
        invariant o <= |objects|
        invariant forall j :: 0 <= j < o ==> !Owns(objects[j], name)
      {
        var f := 0;
        while f < |objects[o].files|
          invariant f <= |objects[o].files|
          invariant forall i :: 0 <= i < f ==> objects[o].files[i].originalName != name
        {
          if objects[o].files[f].originalName == name {
            csvMetadata := csvMetadata[index := csvMetadata[index].(id := objects[o].id)];
            return None;
          }
          f := f + 1;
        }
        o := o + 1;
      }
      return Some(NoSuchFile(name));
    }

    /** `validateAssetID(index)`: rewrites the original name of record `index` on success. */
    method ValidateAssetID(index: nat, isUuid: string -> bool, assetStatus: string -> Result<int>) returns (err: MaybeError)
      requires index < |csvMetadata|
      modifies this
      ensures err == AssetIDCheck(old(csvMetadata[index]), old(assets), isUuid, assetStatus).0
      ensures csvMetadata == old(csvMetadata)[index := AssetIDCheck(old(csvMetadata[index]), old(assets), isUuid, assetStatus).1]
      ensures assets == old(assets) && csvFilesToUpdate == old(csvFilesToUpdate)
    {
      var id := csvMetadata[index].id;
      if !isUuid(id) {
        return Some("not a valid asset ID");
      }
      var status;
      match assetStatus(id) {
        case Err(e) => return Some(e);
        case Ok(s) => status := s;
      }
      if status == 401 {
        return Some("401: unauthorized, please check your asset id " + id + " is correct");
      } else if status == 404 {
        return Some("404: asset " + id + " not found on iconik servers");
      }
      var o := 0;
      while o < |assets|
        invariant o <= |assets|
        invariant forall j :: 0 <= j < o ==> assets[j].id != id || |assets[j].files| == 0
      {
        if 0 < |assets[o].files| && assets[o].id == id {
          csvMetadata := csvMetadata[index := csvMetadata[index].(originalName := assets[o].files[0].originalName)];
          return None;
        }
        o := o + 1;
      }
      return Some(NotInCollection(id));
    }
 
    /**
     * One data row of `UpdateIconik`, from the new record to the metadata
     * update; `calls` extends the updates sent before the row, `calls0`, by
     * those the row sends.
     */
    method ProcessRow(row: seq<string>, names: seq<string>, labels: seq<string>, k: nat, remote: Remote, ghost calls0: seq<Call>)
      returns (halt: Halt, ghost calls: seq<Call>)
      requires k <= |csvMetadata| && |row| >= 3
      modifies this
      ensures Run(csvMetadata, calls, halt) == RowStep(old(csvMetadata), calls0, row, names, labels, k, old(assets), remote)
      ensures assets == old(assets) && csvFilesToUpdate == old(csvFilesToUpdate)
    {
      calls := calls0;
      var p := |csvMetadata|;
      csvMetadata := csvMetadata + [CsvDomain.NewRecord(row[0], row[1], "", row[2])];
      var err := ValidateAssetID(k, remote.isUuid, remote.assetStatus);
      var err2 := ValidateFilename(k, remote.collection);
      if err != None && err2 != None {
        return Running, calls;
      }
      csvMetadata := csvMetadata[p := csvMetadata[p].(added := true)];
      var cells := CollectCells(row, names, labels, FirstMetadataColumn, SkipBlank);
      csvMetadata := csvMetadata[p := csvMetadata[p].(metadataValues := cells.values)];
      match cells {
        case CellsCrashed(_) => return Crashed, calls;
        case CellsFailed(_, e) => return Failed(e), calls;
        case CellsOk(_) =>
      }
      calls := calls + [TitleCall(csvMetadata[k].id, csvMetadata[k].title)];
      var title := TitleOutcome(remote.titleCall(csvMetadata[k].id, csvMetadata[k].title));
      if title == Crash {
        return Crashed, calls;
      }
      calls := calls + [MetadataCall(csvMetadata[k].id, csvMetadata[k].metadataValues)];
      var meta := MetadataOutcome(remote.metadataCall(csvMetadata[k].id, csvMetadata[k].metadataValues));
      if meta.Stop? {
        return Failed(meta.err), calls;
      }
      return Running, calls;
    }
 

    /**
     * `UpdateIconik(metadataFile)`, given the table the view matching made of
     * it: the header test, the file count, the row loop, and the two counting
     * loops over every record held.
     */
    method UpdateIconik(metadataFile: seq<seq<string>>, matchingData: seq<seq<string>>, remote: Remote)
      returns (halt: Halt, successes: nat, failures: nat, ghost calls: seq<Call>)
      modifies this
      ensures assets == old(assets)
      ensures |metadataFile| == 0 || HeadersMatch(metadataFile[0], ExpectedHeaders) == None ==>
        halt == Crashed && csvMetadata == old(csvMetadata) && csvFilesToUpdate == old(csvFilesToUpdate)
      ensures |metadataFile| > 0 && HeadersMatch(metadataFile[0], ExpectedHeaders) == Some(false) ==>
        halt == Failed("CSV file not properly formatted for Iconik") &&
        csvMetadata == old(csvMetadata) && csvFilesToUpdate == old(csvFilesToUpdate)
      ensures |metadataFile| > 0 && HeadersMatch(metadataFile[0], ExpectedHeaders) == Some(true) && |matchingData| < 2 ==>
        halt == Crashed && csvMetadata == old(csvMetadata) && csvFilesToUpdate == old(csvFilesToUpdate)
      ensures |metadataFile| > 0 && HeadersMatch(metadataFile[0], ExpectedHeaders) == Some(true) && |matchingData| >= 2 ==>
        csvFilesToUpdate == |matchingData| - 2 &&
        Run(csvMetadata, calls, halt) == RunUpTo(old(csvMetadata), matchingData, old(assets), remote, |matchingData|)
      ensures halt == Running ==> successes == CsvDomain.CountAdded(csvMetadata) && failures == CsvDomain.CountNotAdded(csvMetadata)
    {
      successes, failures, calls := 0, 0, [];
      if |metadataFile| == 0 {
        return Crashed, successes, failures, calls;
      }
      var ok := HeadersMatch(metadataFile[0], ExpectedHeaders);
      if ok == None {
        return Crashed, successes, failures, calls;
      } else if ok == Some(false) {
        return Failed("CSV file not properly formatted for Iconik"), successes, failures, calls;
      }
      if |matchingData| < 2 {
        return Crashed, successes, failures, calls;
      }
      csvFilesToUpdate := |matchingData| - 2;
      halt, calls := RunRows(matchingData, remote);
      if halt != Running {
        return;
      }
      successes, failures := CountResults();
    }

    /** The row loop of `UpdateIconik`: each data row in order, until one stops the run. */
    method RunRows(matchingData: seq<seq<string>>, remote: Remote) returns (halt: Halt, ghost calls: seq<Call>)
      requires |matchingData| >= 2
      modifies this
      ensures Run(csvMetadata, calls, halt) == RunUpTo(old(csvMetadata), matchingData, old(assets), remote, |matchingData|)
      ensures assets == old(assets) && csvFilesToUpdate == old(csvFilesToUpdate)
    {
      var names := matchingData[0];
      var labels := matchingData[1];
      ghost var recs0 := csvMetadata;
      calls := [];
      var index := 2;
      while index < |matchingData|
        invariant 2 <= index <= |matchingData|
        invariant RunUpTo(recs0, matchingData, assets, remote, index) == Run(csvMetadata, calls, Running)
        invariant assets == old(assets) && csvFilesToUpdate == old(csvFilesToUpdate)
      {
        var row := matchingData[index];
        if |row| < 3 {
          RunStops(recs0, matchingData, assets, remote, index + 1, |matchingData|);
          return Crashed, calls;
        }
        halt, calls := ProcessRow(row, names, labels, index - 2, remote, calls);
        if halt != Running {
          RunStops(recs0, matchingData, assets, remote, index + 1, |matchingData|);
          return;
        }
        index := index + 1;
      }
      return Running, calls;
    }

    /** The two counting loops: records flagged as added, and the rest. */
    method CountResults() returns (successes: nat, failures: nat)
      ensures successes == CsvDomain.CountAdded(csvMetadata)
      ensures failures == CsvDomain.CountNotAdded(csvMetadata)
    {
      successes, failures := 0, 0;
      var i := 0;
      while i < |csvMetadata|
        invariant i <= |csvMetadata|
        invariant successes == CsvDomain.CountAdded(csvMetadata[..i])
      {
        assert csvMetadata[..i + 1][..i] == csvMetadata[..i];
        if csvMetadata[i].added {
          successes := successes + 1;
        }
        i := i + 1;
      }
      assert csvMetadata[..i] == csvMetadata;
      i := 0;
      while i < |csvMetadata|
        invariant i <= |csvMetadata|
        invariant failures == CsvDomain.CountNotAdded(csvMetadata[..i])
      {
        assert csvMetadata[..i + 1][..i] == csvMetadata[..i];
        if !csvMetadata[i].added {
          failures := failures + 1;
        }
        i := i + 1;
      }
      assert csvMetadata[..i] == csvMetadata;
    }
  }

  /** Once a run has stopped, later rows change nothing. */
  lemma {:induction false} RunStops(recs0: seq<Record>, matching: seq<seq<string>>, assets: seq<Object>, remote: Remote, i: nat, j: nat)
    requires 2 <= i <= j <= |matching|
    requires RunUpTo(recs0, matching, assets, remote, i).halt != Running
    ensures RunUpTo(recs0, matching, assets, remote, j) == RunUpTo(recs0, matching, assets, remote, i)
  {
    if i < j {
      RunStops(recs0, matching, assets, remote, i, j - 1);
    }
  }

  /** With the checks aimed at the new record, a row step leaves the earlier records alone and flags the new one by `RowAdded`. */
  lemma RowStepOwnRecord(recs: seq<Record>, calls: seq<Call>, row: seq<string>, names: seq<string>, labels: seq<string>,
                         assets: seq<Object>, remote: Remote)
    requires |row| >= 3
    ensures var r := RowStep(recs, calls, row, names, labels, |recs|, assets, remote);
      (forall j :: 0 <= j < |recs| ==> r.recs[j] == recs[j]) && r.recs[|recs|].added == RowAdded(row, assets, remote)
  {
    var c := AppendAndCheck(recs, row, |recs|, assets, remote);
    if !c.1 {
      var r := FinishRow(c.0, calls, |recs|, row, names, labels, |recs|, remote);
    }
  }

  /**
   * The updates a row sends when its checks aim at its own record: nothing
   * unless the record was flagged as added; otherwise, once its cells are
   * read, the title update of that record, then (unless the title update
   * crashed) its metadata update, holding only cells that are not blank. A
   * row after which the run goes on has sent the pair exactly when its
   * record was added.
   */
  lemma RowStepCalls(recs: seq<Record>, calls: seq<Call>, row: seq<string>, names: seq<string>, labels: seq<string>,
                     assets: seq<Object>, remote: Remote)
    requires |row| >= 3
    ensures var r := RowStep(recs, calls, row, names, labels, |recs|, assets, remote);
      var rec := r.recs[|recs|];
      r.calls == calls ||
      (rec.added && r.halt == Crashed && r.calls == calls + [TitleCall(rec.id, rec.title)]) ||
      (rec.added && r.calls == calls + [TitleCall(rec.id, rec.title), MetadataCall(rec.id, rec.metadataValues)] &&
       forall key :: key in rec.metadataValues ==> Kept(SkipBlank, rec.metadataValues[key]))
    ensures var r := RowStep(recs, calls, row, names, labels, |recs|, assets, remote);
      r.halt == Running ==> (r.calls == calls <==> !r.recs[|recs|].added)
  {
    var c := AppendAndCheck(recs, row, |recs|, assets, remote);
    if !c.1 {
      var p := |recs|;
      var recs4 := c.0[p := c.0[p].(added := true)];
      var cells := CellsUpTo(row, names, labels, FirstMetadataColumn, |row|, SkipBlank);
      if cells.CellsOk? {
        CellsKept(row, names, labels, FirstMetadataColumn, |row|, SkipBlank);
        var sent := recs4[p := recs4[p].(metadataValues := cells.values)];
        var r := SendUpdates(sent, calls, p, remote);
        assert r.recs[p] == sent[p];
      }
    }
  }

  /**
   * When the record list did not start empty, the checks of a row run on an
   * earlier record, and the row's own record keeps the ID and original name
   * of its cells.
   */
  lemma ChecksMissNewRecord(recs: seq<Record>, calls: seq<Call>, row: seq<string>, names: seq<string>, labels: seq<string>,
                            k: nat, assets: seq<Object>, remote: Remote)
    requires k < |recs| && |row| >= 3
    ensures var r := RowStep(recs, calls, row, names, labels, k, assets, remote);
      r.recs[|recs|].id == row[0] && r.recs[|recs|].originalName == row[1]
  {
    var c := AppendAndCheck(recs, row, k, assets, remote);
    if !c.1 {
      var r := FinishRow(c.0, calls, |recs|, row, names, labels, k, remote);
    }
  }

  /** Record j was made from data row j (row j + 2 of the matched table) and is flagged by `RowAdded` for it. */
  predicate FlagsFollowRows(recs: seq<Record>, matching: seq<seq<string>>, assets: seq<Object>, remote: Remote)
  {
    |recs| + 2 <= |matching| &&
    forall j :: 0 <= j < |recs| ==> Flagged(recs[j], matching[j + 2], assets, remote)
  }

  /** A record made from a row of at least three cells, flagged as `RowAdded` says for that row. */
  predicate Flagged(rec: Record, row: seq<string>, assets: seq<Object>, remote: Remote)
  {
    |row| >= 3 && rec.added == RowAdded(row, assets, remote)
  }

  /** Appending a record flagged by the next row, with the earlier records kept, keeps every record flagged by its own row. */
  lemma FlagsExtend(recs: seq<Record>, next: seq<Record>, matching: seq<seq<string>>, assets: seq<Object>, remote: Remote)
    requires FlagsFollowRows(recs, matching, assets, remote)
    requires |recs| + 3 <= |matching| && |matching[|recs| + 2]| >= 3
    requires |next| == |recs| + 1 && forall j :: 0 <= j < |recs| ==> next[j] == recs[j]
    requires next[|recs|].added == RowAdded(matching[|recs| + 2], assets, remote)
    ensures FlagsFollowRows(next, matching, assets, remote)
  {
    forall j | 0 <= j < |next|
      ensures Flagged(next[j], matching[j + 2], assets, remote)
    {
      if j < |recs| {
        assert Flagged(recs[j], matching[j + 2], assets, remote);
        assert next[j] == recs[j];
      } else {
        assert j == |recs|;
      }
    }
  }

  /** A row step whose checks aim at the new record keeps every record flagged by its own row. */
  lemma FlagsStep(recs: seq<Record>, calls: seq<Call>, matching: seq<seq<string>>, assets: seq<Object>, remote: Remote)
    requires FlagsFollowRows(recs, matching, assets, remote)
    requires |recs| + 3 <= |matching| && |matching[|recs| + 2]| >= 3
    ensures FlagsFollowRows(RowStep(recs, calls, matching[|recs| + 2], matching[0], matching[1], |recs|, assets, remote).recs,
                            matching, assets, remote)
  {
    var row := matching[|recs| + 2];
    RowStepOwnRecord(recs, calls, row, matching[0], matching[1], assets, remote);
    FlagsExtend(recs, RowStep(recs, calls, row, matching[0], matching[1], |recs|, assets, remote).recs, matching, assets, remote);
  }

  /** One more row of a run that started empty keeps every record flagged by its own row. */
  lemma FlagsNext(matching: seq<seq<string>>, assets: seq<Object>, remote: Remote, i: nat)
    requires 2 < i <= |matching|
    requires FlagsFollowRows(RunUpTo([], matching, assets, remote, i - 1).recs, matching, assets, remote)
    ensures FlagsFollowRows(RunUpTo([], matching, assets, remote, i).recs, matching, assets, remote)
  {
    var prev := RunUpTo([], matching, assets, remote, i - 1);
    if prev.halt == Running && |matching[i - 1]| >= 3 {
      assert |prev.recs| == i - 3;
      FlagsStep(prev.recs, prev.calls, matching, assets, remote);
    }
  }

  /**
   * When the record list starts empty, record j belongs to data row j and
   * is flagged as added exactly when not both of its checks fail.
   */
  lemma {:induction false} RunFlagsRows(matching: seq<seq<string>>, assets: seq<Object>, remote: Remote, i: nat)
    requires 2 <= i <= |matching|
    ensures FlagsFollowRows(RunUpTo([], matching, assets, remote, i).recs, matching, assets, remote)
  {
    if i > 2 {
      RunFlagsRows(matching, assets, remote, i - 1);
      FlagsNext(matching, assets, remote, i);
    }
  }

  /** A title update, or a title update and a metadata update of non-blank cells for the same asset, keep the updates in pairs. */
  lemma PairsAppend(calls: seq<Call>, id: string, title: string, values: map<string, CsvDomain.FieldValues>)
    requires CallsInPairs(calls, SkipBlank)
    ensures CallsInPairs(calls + [TitleCall(id, title)], SkipBlank)
    ensures (forall key :: key in values ==> Kept(SkipBlank, values[key])) ==>
      CallsInPairs(calls + [TitleCall(id, title), MetadataCall(id, values)], SkipBlank)
  {
  }

  /**
   * A row whose checks aim at its own record keeps the updates in
   * title/metadata pairs, and keeps one title update per record added
   * while the run goes on.
   */
  lemma RowKeepsPairs(recs: seq<Record>, calls: seq<Call>, row: seq<string>, names: seq<string>, labels: seq<string>,
                      assets: seq<Object>, remote: Remote)
    requires |row| >= 3
    requires CallsInPairs(calls, SkipBlank) && TitleCalls(calls) == CsvDomain.CountAdded(recs)
    ensures var r := RowStep(recs, calls, row, names, labels, |recs|, assets, remote);
      CallsInPairs(r.calls, SkipBlank) && (r.halt == Running ==> TitleCalls(r.calls) == CsvDomain.CountAdded(r.recs))
  {
    var r := RowStep(recs, calls, row, names, labels, |recs|, assets, remote);
    RowStepCalls(recs, calls, row, names, labels, assets, remote);
    RowStepOwnRecord(recs, calls, row, names, labels, assets, remote);
    var rec := r.recs[|recs|];
    PairsAppend(calls, rec.id, rec.title, rec.metadataValues);
    if r.halt == Running {
      assert r.recs == recs + [rec];
      CsvDomain.CountAddedAppend(recs, rec);
      if r.calls != calls {
        TitleCallsAppend(calls, TitleCall(rec.id, rec.title));
        assert r.calls == calls + [TitleCall(rec.id, rec.title)] + [MetadataCall(rec.id, rec.metadataValues)];
        TitleCallsAppend(calls + [TitleCall(rec.id, rec.title)], MetadataCall(rec.id, rec.metadataValues));
      }
    }
  }

  /** One more row of a run that started empty keeps its updates in pairs, one title update per record added. */
  lemma CallsNext(matching: seq<seq<string>>, assets: seq<Object>, remote: Remote, i: nat)
    requires 2 < i <= |matching|
    requires var prev := RunUpTo([], matching, assets, remote, i - 1);
      CallsInPairs(prev.calls, SkipBlank) &&
      (prev.halt == Running ==> TitleCalls(prev.calls) == CsvDomain.CountAdded(prev.recs))
    ensures var r := RunUpTo([], matching, assets, remote, i);
      CallsInPairs(r.calls, SkipBlank) && (r.halt == Running ==> TitleCalls(r.calls) == CsvDomain.CountAdded(r.recs))
  {
    var prev := RunUpTo([], matching, assets, remote, i - 1);
    if prev.halt == Running && |matching[i - 1]| >= 3 {
      assert |prev.recs| == i - 3;
      RowKeepsPairs(prev.recs, prev.calls, matching[i - 1], matching[0], matching[1], assets, remote);
    }
  }

  /**
   * The updates of a run that started empty: each metadata update comes
   * right after the title update of the same asset and holds only cells
   * that are not blank, and while the run goes on there is one title update
   * per record added.
   */
  lemma {:induction false} RunCalls(matching: seq<seq<string>>, assets: seq<Object>, remote: Remote, i: nat)
    requires 2 <= i <= |matching|
    ensures var r := RunUpTo([], matching, assets, remote, i);
      CallsInPairs(r.calls, SkipBlank) && (r.halt == Running ==> TitleCalls(r.calls) == CsvDomain.CountAdded(r.recs))
  {
    if i > 2 {
      RunCalls(matching, assets, remote, i - 1);
      CallsNext(matching, assets, remote, i);
    }
  }

  /**
   * When the record list starts empty and the run completes, the successes
   * and the failures add up to the number of data rows.
   */
  lemma CompletedRunCounts(matching: seq<seq<string>>, assets: seq<Object>, remote: Remote)
    requires |matching| >= 2
    requires RunUpTo([], matching, assets, remote, |matching|).halt == Running
    ensures var recs := RunUpTo([], matching, assets, remote, |matching|).recs;
      CsvDomain.CountAdded(recs) + CsvDomain.CountNotAdded(recs) == |matching| - 2
  {
    CsvDomain.CountsPartition(RunUpTo([], matching, assets, remote, |matching|).recs);
  }
}
