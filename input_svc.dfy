/**
 * The input service (internal/core/services/input/svcs.go): the page
 * recursion over a collection's contents, the traversal that gathers the
 * assets below a collection, and the import engine that checks each row of a
 * sheet and sends its title and metadata.
 *
 * The contents endpoint is a `Catalog` of converted pages; `show` stands for
 * the `%v` rendering of a page's decoded `errors` member. The two visited
 * maps the traversal threads through its recursion are one shared object.
 */
module InputSvc {
  import opened Wrappers
  import opened Json
  import opened CollectionsDomain
  import opened Catalog
  import opened Runs
  import opened AssetLookup
  import IconikioTypes
  import CsvDomain
  import Utils
  import AssetsSvc
  import AssetsDomain

  type Pages = Catalog<ContentsDTO>

  /**
   * `GetCollectionObjects(id, pageNo, objects)`: the objects given, then
   * the objects of page pageNo and of each following page for as long as
   * the page just read reports more pages than its own number. A failed
   * fetch, or a page whose `errors` member is set, discards everything.
   */
  function GetCollectionObjects(cat: Pages, show: Json -> string, id: string, pageNo: int, objects: seq<ObjectDTO>)
    : (r: Result<seq<ObjectDTO>>)
    decreases PagesLeft(cat, id, pageNo)
    ensures r.Ok? ==> id in cat
  {
    match Page(cat, id, pageNo)
    case Err(e) => Err(e)
    case Ok(coll) =>
      if !IsNil(coll.errors) then Err(show(coll.errors))
      else
        var acc := objects + coll.objects;
        if coll.pages > 1 && coll.pages > pageNo then GetCollectionObjects(cat, show, id, pageNo + 1, acc)
        else Ok(acc)
  }

  /**
   * The objects passed in only prefix the result: the same pages are read
   * and the same error ends the recursion whatever was accumulated before.
   */
  lemma {:induction false} Accumulates(cat: Pages, show: Json -> string, id: string, pageNo: int, objects: seq<ObjectDTO>)
    decreases PagesLeft(cat, id, pageNo)
    ensures GetCollectionObjects(cat, show, id, pageNo, objects).Ok?
            <==> GetCollectionObjects(cat, show, id, pageNo, []).Ok?
    ensures GetCollectionObjects(cat, show, id, pageNo, objects).Ok? ==>
              GetCollectionObjects(cat, show, id, pageNo, objects).value
              == objects + GetCollectionObjects(cat, show, id, pageNo, []).value
    ensures GetCollectionObjects(cat, show, id, pageNo, objects).Err? ==>
              GetCollectionObjects(cat, show, id, pageNo, objects) == GetCollectionObjects(cat, show, id, pageNo, [])
  {
    match Page(cat, id, pageNo)
    case Err(_) =>
    case Ok(coll) =>
      if IsNil(coll.errors) && coll.pages > 1 && coll.pages > pageNo {
        Accumulates(cat, show, id, pageNo + 1, objects + coll.objects);
        Accumulates(cat, show, id, pageNo + 1, [] + coll.objects);
        assert [] + coll.objects == coll.objects;
        var rest := GetCollectionObjects(cat, show, id, pageNo + 1, []);
        if rest.Ok? {
          assert objects + coll.objects + rest.value == objects + (coll.objects + rest.value);
        }
      } else {
        assert [] + coll.objects == coll.objects;
      }
  }

  /**
   * The converted pages always report zero pages, so the recursion never
   * goes past page 1: the result is the objects of page 1 alone.
   */
  lemma ConvertedPagesStopAtOne(cat: Pages, show: Json -> string, id: string, objects: seq<ObjectDTO>, c: Contents)
    requires id in cat && |cat[id]| >= 1 && cat[id][0] == Ok(ToContentsDTO(c))
    ensures GetCollectionObjects(cat, show, id, 1, objects) == Ok(objects + ToContentsDTO(c).objects)
  {
  }

  /**
   * Where a traversal ends: the assets gathered, the two visited sets, and
   * whether the loop returned early by descending into a sub-collection.
   */
  datatype Scan = Scan(assets: seq<ObjectDTO>, assetsSeen: set<string>, collectionsSeen: set<string>, descended: bool)

  /**
   * The loop of `ProcessObjects` from position i: a new asset is appended
   * and marked; an unvisited collection whose contents are fetched is
   * marked and the result of traversing those contents is returned at
   * once; a collection whose fetch fails is skipped.
   */
  function ScanFrom(cat: Pages, show: Json -> string, assets: seq<ObjectDTO>, objects: seq<ObjectDTO>, i: nat,
                    assetsSeen: set<string>, collectionsSeen: set<string>): (r: Scan)
    requires i <= |objects|
    decreases |Unvisited(cat, collectionsSeen)|, |objects| - i
  {
    if i == |objects| then Scan(assets, assetsSeen, collectionsSeen, false)
    else
      var o := objects[i];
      if o.objectType == "assets" then
        if o.id !in assetsSeen then ScanFrom(cat, show, assets + [o], objects, i + 1, assetsSeen + {o.id}, collectionsSeen)
        else ScanFrom(cat, show, assets, objects, i + 1, assetsSeen, collectionsSeen)
      else if o.objectType == "collections" && o.id !in collectionsSeen then
        match GetCollectionObjects(cat, show, o.id, 1, [])
        case Err(_) => ScanFrom(cat, show, assets, objects, i + 1, assetsSeen, collectionsSeen)
        case Ok(objs) =>
          MarkShrinks(cat, collectionsSeen, o.id);
          ScanFrom(cat, show, assets, objs, 0, assetsSeen, collectionsSeen + {o.id}).(descended := true)
      else ScanFrom(cat, show, assets, objects, i + 1, assetsSeen, collectionsSeen)
  }

  /**
   * `ProcessObjects(assets, objects, assetsMap, collectionsMap)`: the loop
   * over `objects`, recursing into the first unvisited collection it can
   * fetch. The error it could pass up is never set.
   */
  method ProcessObjects(cat: Pages, show: Json -> string, assets: seq<ObjectDTO>, objects: seq<ObjectDTO>, visited: Visited)
    returns (r: seq<ObjectDTO>, err: MaybeError)
    modifies visited
    decreases |Unvisited(cat, visited.collections)|
    ensures var s := ScanFrom(cat, show, assets, objects, 0, old(visited.assets), old(visited.collections));
      r == s.assets && visited.assets == s.assetsSeen && visited.collections == s.collectionsSeen
    ensures err == None
  {
    ghost var target := ScanFrom(cat, show, assets, objects, 0, visited.assets, visited.collections);
    ghost var start := visited.collections;
    r := assets;
    var i := 0;
    while i < |objects|
      invariant i <= |objects|
      invariant target == ScanFrom(cat, show, r, objects, i, visited.assets, visited.collections)
      invariant visited.collections == start
    {
      var o := objects[i];
      ghost var seenA, seenC := visited.assets, visited.collections;
      if o.objectType == "assets" {
        if o.id !in visited.assets {
          r := r + [o];
          visited.assets := visited.assets + {o.id};
        }
      } else if o.objectType == "collections" && o.id !in visited.collections {
        var fetched := GetCollectionObjects(cat, show, o.id, 1, []);
        if fetched.Ok? {
          MarkShrinks(cat, visited.collections, o.id);
          visited.collections := visited.collections + {o.id};
          var a, e := ProcessObjects(cat, show, r, fetched.value, visited);
          assert target == ScanFrom(cat, show, r, fetched.value, 0, seenA, seenC + {o.id}).(descended := true);
          if e != None {
            return [], e;
          }
          return a, None;
        }
      }
      i := i + 1;
    }
    return r, None;
  }

  /** No two objects of the list share an ID. */
  predicate DistinctIds(objs: seq<ObjectDTO>)
  {
    forall j, k :: 0 <= j < k < |objs| ==> objs[j].id != objs[k].id
  }

  /** Every object of the list has its ID in `ids`. */
  predicate IdsIn(objs: seq<ObjectDTO>, ids: set<string>)
  {
    forall j :: 0 <= j < |objs| ==> objs[j].id in ids
  }

  /**
   * The assets map deduplicates: starting from distinct assets all marked
   * as seen, the traversal only appends assets-typed objects not seen
   * before, so the result stays distinct and marked, and begins with the
   * assets passed in.
   */
  lemma {:induction false} ScanDeduplicates(cat: Pages, show: Json -> string, assets: seq<ObjectDTO>, objects: seq<ObjectDTO>,
                                            i: nat, assetsSeen: set<string>, collectionsSeen: set<string>)
    requires i <= |objects|
    requires DistinctIds(assets) && IdsIn(assets, assetsSeen)
    decreases |Unvisited(cat, collectionsSeen)|, |objects| - i
    ensures var s := ScanFrom(cat, show, assets, objects, i, assetsSeen, collectionsSeen);
      DistinctIds(s.assets) && IdsIn(s.assets, s.assetsSeen) && assetsSeen <= s.assetsSeen &&
      |assets| <= |s.assets| && s.assets[..|assets|] == assets &&
      forall j :: |assets| <= j < |s.assets| ==> s.assets[j].objectType == "assets" && s.assets[j].id !in assetsSeen
  {
    if i < |objects| {
      var o := objects[i];
      if o.objectType == "assets" {
        if o.id !in assetsSeen {
          var next := assets + [o];
          assert DistinctIds(next) && IdsIn(next, assetsSeen + {o.id});
          ScanDeduplicates(cat, show, next, objects, i + 1, assetsSeen + {o.id}, collectionsSeen);
          var s := ScanFrom(cat, show, next, objects, i + 1, assetsSeen + {o.id}, collectionsSeen);
          assert s.assets[..|assets|] == s.assets[..|next|][..|assets|];
        } else {
          ScanDeduplicates(cat, show, assets, objects, i + 1, assetsSeen, collectionsSeen);
        }
      } else if o.objectType == "collections" && o.id !in collectionsSeen {
        match GetCollectionObjects(cat, show, o.id, 1, [])
        case Err(_) =>
          ScanDeduplicates(cat, show, assets, objects, i + 1, assetsSeen, collectionsSeen);
        case Ok(objs) =>
          MarkShrinks(cat, collectionsSeen, o.id);
          ScanDeduplicates(cat, show, assets, objs, 0, assetsSeen, collectionsSeen + {o.id});
      } else {
        ScanDeduplicates(cat, show, assets, objects, i + 1, assetsSeen, collectionsSeen);
      }
    }
  }

  /**
   * A collection is marked only once its contents were fetched: the
   * visited set only grows, and every collection it gains is one whose
   * page recursion succeeds (so one the catalog lists).
   */
  lemma {:induction false} ScanMarksFetched(cat: Pages, show: Json -> string, assets: seq<ObjectDTO>, objects: seq<ObjectDTO>,
                                            i: nat, assetsSeen: set<string>, collectionsSeen: set<string>)
    requires i <= |objects|
    decreases |Unvisited(cat, collectionsSeen)|, |objects| - i
    ensures var s := ScanFrom(cat, show, assets, objects, i, assetsSeen, collectionsSeen);
      collectionsSeen <= s.collectionsSeen &&
      forall id :: id in s.collectionsSeen && id !in collectionsSeen ==>
        id in cat && GetCollectionObjects(cat, show, id, 1, []).Ok?
  {
    if i < |objects| {
      var o := objects[i];
      if o.objectType == "assets" {
        if o.id !in assetsSeen {
          ScanMarksFetched(cat, show, assets + [o], objects, i + 1, assetsSeen + {o.id}, collectionsSeen);
        } else {
          ScanMarksFetched(cat, show, assets, objects, i + 1, assetsSeen, collectionsSeen);
        }
      } else if o.objectType == "collections" && o.id !in collectionsSeen {
        match GetCollectionObjects(cat, show, o.id, 1, [])
        case Err(_) =>
          ScanMarksFetched(cat, show, assets, objects, i + 1, assetsSeen, collectionsSeen);
        case Ok(objs) =>
          MarkShrinks(cat, collectionsSeen, o.id);
          ScanMarksFetched(cat, show, assets, objs, 0, assetsSeen, collectionsSeen + {o.id});
      } else {
        ScanMarksFetched(cat, show, assets, objects, i + 1, assetsSeen, collectionsSeen);
      }
    }
  }

  /**
   * Once the loop descends into a sub-collection it never returns to the
   * list it was scanning: whatever follows in that list is ignored.
   */
  lemma {:induction false} DescentIgnoresRest(cat: Pages, show: Json -> string, assets: seq<ObjectDTO>, objects: seq<ObjectDTO>,
                                              rest: seq<ObjectDTO>, i: nat, assetsSeen: set<string>, collectionsSeen: set<string>)
    requires i <= |objects|
    requires ScanFrom(cat, show, assets, objects, i, assetsSeen, collectionsSeen).descended
    decreases |objects| - i
    ensures ScanFrom(cat, show, assets, objects + rest, i, assetsSeen, collectionsSeen)
            == ScanFrom(cat, show, assets, objects, i, assetsSeen, collectionsSeen)
  {
    assert i < |objects|;
    var o := objects[i];
    assert (objects + rest)[i] == o;
    if o.objectType == "assets" {
      if o.id !in assetsSeen {
        DescentIgnoresRest(cat, show, assets + [o], objects, rest, i + 1, assetsSeen + {o.id}, collectionsSeen);
      } else {
        DescentIgnoresRest(cat, show, assets, objects, rest, i + 1, assetsSeen, collectionsSeen);
      }
    } else if o.objectType == "collections" && o.id !in collectionsSeen {
      if GetCollectionObjects(cat, show, o.id, 1, []).Err? {
        DescentIgnoresRest(cat, show, assets, objects, rest, i + 1, assetsSeen, collectionsSeen);
      }
    } else {
      DescentIgnoresRest(cat, show, assets, objects, rest, i + 1, assetsSeen, collectionsSeen);
    }
  }

  /** The assets that failed to update (ID to original name), the calls made so far, and how the run stands. */
  datatype Progress = Progress(notAdded: map<string, string>, calls: seq<Call>, halt: Halt)

  /**
   * The remote side of an import: uuid.Parse, the asset fetch behind
   * `ValidateAsset`, and the title update and metadata update of an asset
   * (the view being fixed for the run), each giving its error.
   */
  datatype Remote = Remote(
    isUuid: string -> bool,
    getAsset: (string, string) -> AssetsSvc.AssetReply,
    updateTitle: (string, string) -> MaybeError,
    updateMetadata: (string, map<string, CsvDomain.FieldValues>) -> MaybeError)

  /** The headers the file must open with. */
  const ExpectedHeaders: seq<string> := ["id", "original_name", "size", "title"]

  /** The first metadata column of a matched row. */
  const FirstMetadataColumn := 4

  /**
   * The original name after the loop over the first k assets: each file of
   * an asset with the row's ID overwrites it in turn.
   */
  function NameAfter(assets: seq<ObjectDTO>, id: string, name: string, k: nat): string
    requires k <= |assets|
  {
    if k == 0 then name
    else
      var o := assets[k - 1];
      if o.id == id && |o.files| > 0 then o.files[|o.files| - 1].originalName
      else NameAfter(assets, id, name, k - 1)
  }

  /** The nested loop over the assets and their files. */
  method ResolveName(assets: seq<ObjectDTO>, id: string, name: string) returns (origName: string)
    ensures origName == NameAfter(assets, id, name, |assets|)
  {
    origName := name;
    var k := 0;
    while k < |assets|
      invariant k <= |assets| && origName == NameAfter(assets, id, name, k)
    {
      var files := assets[k].files;
      var f := 0;
      while f < |files|
        invariant f <= |files|
        invariant origName == if f > 0 && assets[k].id == id then files[f - 1].originalName else NameAfter(assets, id, name, k)
      {
        if assets[k].id == id {
          origName := files[f].originalName;
        }
        f := f + 1;
      }
      k := k + 1;
    }
  }

  /**
   * The name the loop settles on: the last file of the last asset with the
   * row's ID that has files, or the row's own name when there is none.
   */
  lemma {:induction false} ResolvedName(assets: seq<ObjectDTO>, id: string, name: string, k: nat)
    requires k <= |assets|
    ensures var entries := Utils.EntriesOf(assets[..k]);
      match LastWithFiles(entries, id)
      case None => NameAfter(assets, id, name, k) == name
      case Some(j) => NameAfter(assets, id, name, k) == assets[j].files[|assets[j].files| - 1].originalName
  {
    var entries := Utils.EntriesOf(assets[..k]);
    if k > 0 {
      ResolvedName(assets, id, name, k - 1);
      assert Utils.EntriesOf(assets[..k])[..k - 1] == Utils.EntriesOf(assets[..k - 1]);
    }
  }

  /**
   * The filename lookup of the input service, which expects two results
   * from `utils.ValidateFilename`: the ID of the first asset owning a file
   * of that name, or the error naming the file.
   */
  function Owner(assets: seq<ObjectDTO>, name: string): Reply<string, Error>
  {
    match FirstOwner(Utils.EntriesOf(assets), name)
    case Some(k) => Reply(assets[k].id, None)
    case None => Reply("", Some("file " + name + " does not exist in given collection id"))
  }

  /** The lookup succeeds exactly when the file exists, and then names the first asset that owns it. */
  lemma OwnerSpec(assets: seq<ObjectDTO>, name: string)
    ensures Owner(assets, name).err.None? <==> Utils.HasFileNamed(assets, name)
    ensures Owner(assets, name).err == Utils.ValidateFilename(assets, CsvDomain.NewRecord("", name, "", ""))
    ensures Owner(assets, name).err.None? ==>
      exists k :: 0 <= k < |assets| && Owner(assets, name).value == assets[k].id &&
        (exists f :: 0 <= f < |assets[k].files| && assets[k].files[f].originalName == name) &&
        forall j, f :: 0 <= j < k && 0 <= f < |assets[j].files| ==> assets[j].files[f].originalName != name
  {
    var entries := Utils.EntriesOf(assets);
    match FirstOwner(entries, name)
    case Some(k) =>
      var f :| 0 <= f < |entries[k].fileNames| && entries[k].fileNames[f] == name;
      assert assets[k].files[f].originalName == name;
      forall j, g | 0 <= j < k && 0 <= g < |assets[j].files|
        ensures assets[j].files[g].originalName != name
      {
        assert entries[j].fileNames[g] == assets[j].files[g].originalName;
      }
    case None =>
  }

  /** The original name a row ends up with. */
  function RowName(row: seq<string>, assets: seq<ObjectDTO>): string
    requires |row| >= 2
  {
    NameAfter(assets, row[0], row[1], |assets|)
  }

  /** Whether a row is skipped: the asset check and the filename lookup both fail. */
  predicate RowSkipped(row: seq<string>, assets: seq<ObjectDTO>, remote: Remote)
    requires |row| >= 2
  {
    AssetsSvc.ValidateAsset(remote.isUuid, remote.getAsset, row[0]).Some? && Owner(assets, RowName(row, assets)).err.Some?
  }

  /** The ID a row's updates go to: the owner the lookup found, else the row's own. */
  function RowAssetID(row: seq<string>, assets: seq<ObjectDTO>): string
    requires |row| >= 2
  {
    var owner := Owner(assets, RowName(row, assets));
    if owner.err.None? then owner.value else row[0]
  }

  /** The title update, then the metadata update, each ending the run on error. */
  function Send(p: Progress, assetID: string, title: string, values: map<string, CsvDomain.FieldValues>, remote: Remote): (r: Progress)
    ensures r.notAdded == p.notAdded
  {
    var p1 := p.(calls := p.calls + [TitleCall(assetID, title)]);
    match remote.updateTitle(assetID, title)
    case Some(e) => p1.(halt := Failed(e))
    case None =>
      var p2 := p1.(calls := p1.calls + [MetadataCall(assetID, values)]);
      match remote.updateMetadata(assetID, values)
      case Some(e) => p2.(halt := Failed(e))
      case None => p2
  }

  /** One data row of the matched table. */
  function InputRow(p: Progress, row: seq<string>, names: seq<string>, labels: seq<string>, assets: seq<ObjectDTO>, remote: Remote): Progress
  {
    if |row| < 4 then p.(halt := Crashed)
    else if RowSkipped(row, assets, remote) then p.(notAdded := p.notAdded[RowAssetID(row, assets) := RowName(row, assets)])
    else match CellsUpTo(row, names, labels, FirstMetadataColumn, |row|, SkipSingle)
      case CellsCrashed(_) => p.(halt := Crashed)
      case CellsFailed(_, e) => p.(halt := Failed(e))
      case CellsOk(values) => Send(p, RowAssetID(row, assets), row[3], values, remote)
  }

  /** The rows 2 .. i-1 of the matched table, processed in order until the run stops. */
  function RowsUpTo(matching: seq<seq<string>>, assets: seq<ObjectDTO>, remote: Remote, i: nat): Progress
    requires 2 <= i <= |matching|
  {
    if i == 2 then Progress(map[], [], Running)
    else
      var prev := RowsUpTo(matching, assets, remote, i - 1);
      if prev.halt != Running then prev
      else InputRow(prev, matching[i - 1], matching[0], matching[1], assets, remote)
  }

  /** Once the run has stopped, later rows change nothing. */
  lemma {:induction false} RowsStop(matching: seq<seq<string>>, assets: seq<ObjectDTO>, remote: Remote, i: nat, j: nat)
    requires 2 <= i <= j <= |matching|
    requires RowsUpTo(matching, assets, remote, i).halt != Running
    ensures RowsUpTo(matching, assets, remote, j) == RowsUpTo(matching, assets, remote, i)
  {
    if i < j {
      RowsStop(matching, assets, remote, i, j - 1);
    }
  }

  /** A running run takes the next row. */
  lemma RowsNext(matching: seq<seq<string>>, assets: seq<ObjectDTO>, remote: Remote, i: nat)
    requires 2 <= i < |matching|
    requires RowsUpTo(matching, assets, remote, i).halt == Running
    ensures RowsUpTo(matching, assets, remote, i + 1)
            == InputRow(RowsUpTo(matching, assets, remote, i), matching[i], matching[0], matching[1], assets, remote)
  {
  }

  /** The body of the row loop. */
  method UpdateRow(p: Progress, row: seq<string>, names: seq<string>, labels: seq<string>, assets: seq<ObjectDTO>, remote: Remote)
    returns (q: Progress)
    ensures q == InputRow(p, row, names, labels, assets, remote)
  {
    if |row| < 4 {
      return p.(halt := Crashed);
    }
    var assetID := row[0];
    var origName := row[1];
    var title := row[3];
    var errAssetID := AssetsSvc.ValidateAsset(remote.isUuid, remote.getAsset, assetID);
    origName := ResolveName(assets, assetID, origName);
    var owner := Owner(assets, origName);
    if owner.err == None {
      assetID := owner.value;
    }
    if errAssetID.Some? && owner.err.Some? {
      return p.(notAdded := p.notAdded[assetID := origName]);
    }
    var cells := CollectCells(row, names, labels, FirstMetadataColumn, SkipSingle);
    match cells {
      case CellsCrashed(_) =>
        return p.(halt := Crashed);
      case CellsFailed(_, e) =>
        return p.(halt := Failed(e));
      case CellsOk(values) =>
        q := p.(calls := p.calls + [TitleCall(assetID, title)]);
        var err := remote.updateTitle(assetID, title);
        if err.Some? {
          return q.(halt := Failed(err.value));
        }
        q := q.(calls := q.calls + [MetadataCall(assetID, values)]);
        err := remote.updateMetadata(assetID, values);
        if err.Some? {
          return q.(halt := Failed(err.value));
        }
    }
  }

  /** The row loop, from the first data row until the end or the first stop. */
  method RunRows(matchingData: seq<seq<string>>, assets: seq<ObjectDTO>, remote: Remote) returns (p: Progress)
    requires |matchingData| >= 2
    ensures p == RowsUpTo(matchingData, assets, remote, |matchingData|)
  {
    var names, labels := matchingData[0], matchingData[1];
    p := Progress(map[], [], Running);
    var index := 2;
    while index < |matchingData| && p.halt == Running
      invariant 2 <= index <= |matchingData|
      invariant p == RowsUpTo(matchingData, assets, remote, index)
    {
      RowsNext(matchingData, assets, remote, index);
      p := UpdateRow(p, matchingData[index], names, labels, assets, remote);
      index := index + 1;
    }
    if index < |matchingData| {
      RowsStop(matchingData, assets, remote, index, |matchingData|);
    }
  }

  /**
   * `UpdateIconik`: the header test, the reconciliation of the sheet with
   * the view, then the row loop. Returns how the run ended, the failures
   * recorded, the calls made, and the success count the run reports.
   */
  method UpdateIconik(viewFields: seq<IconikioTypes.ViewField>, assets: seq<ObjectDTO>, metadataFile: seq<seq<string>>, remote: Remote)
    returns (halt: Halt, notAdded: map<string, string>, calls: seq<Call>, reported: int)
    ensures |metadataFile| == 0 ==> halt == Crashed && calls == []
    ensures |metadataFile| > 0 && HeadersMatch(metadataFile[0], ExpectedHeaders) == None ==> halt == Crashed && calls == []
    ensures |metadataFile| > 0 && HeadersMatch(metadataFile[0], ExpectedHeaders) == Some(false) ==>
              halt == Failed("CSV file not properly formatted for Iconik") && calls == []
    ensures (|metadataFile| > 0 && HeadersMatch(metadataFile[0], ExpectedHeaders) == Some(true) &&
             !Utils.RowsCoverHeader(metadataFile)) ==> halt == Crashed && calls == []
    ensures (|metadataFile| > 0 && HeadersMatch(metadataFile[0], ExpectedHeaders) == Some(true) &&
             Utils.RowsCoverHeader(metadataFile)) ==>
              var run := RowsUpTo(Utils.MatchedTable(viewFields, metadataFile), assets, remote, |metadataFile| + 1);
              halt == run.halt && notAdded == run.notAdded && calls == run.calls &&
              (halt == Running ==> reported == |metadataFile| - 1 - |notAdded|)
  {
    notAdded, calls, reported := map[], [], 0;
    if |metadataFile| == 0 {
      return Crashed, notAdded, calls, reported;
    }
    var ok := HeadersMatch(metadataFile[0], ExpectedHeaders);
    if ok == None {
      return Crashed, notAdded, calls, reported;
    } else if ok == Some(false) {
      return Failed("CSV file not properly formatted for Iconik"), notAdded, calls, reported;
    }
    if !Utils.RowsCoverHeader(metadataFile) {
      return Crashed, notAdded, calls, reported;
    }
    halt, notAdded, calls, reported := ImportRows(viewFields, assets, metadataFile, remote);
  }

  /** The part of `UpdateIconik` after the header test: the reconciliation, the row loop and the count. */
  method ImportRows(viewFields: seq<IconikioTypes.ViewField>, assets: seq<ObjectDTO>, metadataFile: seq<seq<string>>, remote: Remote)
    returns (halt: Halt, notAdded: map<string, string>, calls: seq<Call>, reported: int)
    requires |metadataFile| > 0 && Utils.RowsCoverHeader(metadataFile)
    ensures var run := RowsUpTo(Utils.MatchedTable(viewFields, metadataFile), assets, remote, |metadataFile| + 1);
            halt == run.halt && notAdded == run.notAdded && calls == run.calls &&
            (halt == Running ==> reported == |metadataFile| - 1 - |notAdded|)
  {
    var matchingData, nonMatching, err := Utils.MatchCSVtoAPI(viewFields, metadataFile);
    var csvFilesToUpdate := |matchingData| - 2;
    var p := RunRows(matchingData, assets, remote);
    return p.halt, p.notAdded, p.calls, csvFilesToUpdate - |p.notAdded|;
  }

  /**
   * `ValidateAsset` never passes, so the asset check decides nothing: a row
   * is skipped exactly when no asset of the collection has a file with the
   * row's resolved original name.
   */
  lemma SkippedExactlyWhenNameUnknown(row: seq<string>, assets: seq<ObjectDTO>, remote: Remote)
    requires |row| >= 2
    ensures RowSkipped(row, assets, remote) <==> !Utils.HasFileNamed(assets, RowName(row, assets))
  {
    OwnerSpec(assets, RowName(row, assets));
  }

  lemma SendKeepsPairs(p: Progress, assetID: string, title: string, values: map<string, CsvDomain.FieldValues>, remote: Remote)
    requires CallsInPairs(p.calls, SkipSingle)
    requires forall key :: key in values ==> Kept(SkipSingle, values[key])
    ensures CallsInPairs(Send(p, assetID, title, values, remote).calls, SkipSingle)
  {
  }

  /** One row keeps the shape of the calls. */
  lemma RowKeepsPairs(p: Progress, row: seq<string>, names: seq<string>, labels: seq<string>, assets: seq<ObjectDTO>, remote: Remote)
    requires CallsInPairs(p.calls, SkipSingle)
    ensures CallsInPairs(InputRow(p, row, names, labels, assets, remote).calls, SkipSingle)
  {
    if |row| >= 4 && !RowSkipped(row, assets, remote) {
      var cells := CellsUpTo(row, names, labels, FirstMetadataColumn, |row|, SkipSingle);
      if cells.CellsOk? {
        CellsKept(row, names, labels, FirstMetadataColumn, |row|, SkipSingle);
        SendKeepsPairs(p, RowAssetID(row, assets), row[3], cells.values, remote);
      }
    }
  }

  /**
   * Every run sends its metadata update only after the title update of the
   * same asset, and never sends a cell that does not split on commas.
   */
  lemma {:induction false} RunSendsPairs(matching: seq<seq<string>>, assets: seq<ObjectDTO>, remote: Remote, i: nat)
    requires 2 <= i <= |matching|
    ensures CallsInPairs(RowsUpTo(matching, assets, remote, i).calls, SkipSingle)
  {
    if i > 2 {
      RunSendsPairs(matching, assets, remote, i - 1);
      var prev := RowsUpTo(matching, assets, remote, i - 1);
      if prev.halt == Running {
        RowKeepsPairs(prev, matching[i - 1], matching[0], matching[1], assets, remote);
      }
    }
  }

  /** How many of the rows 2 .. i-1 are skipped. */
  function SkippedRows(matching: seq<seq<string>>, assets: seq<ObjectDTO>, remote: Remote, i: nat): (r: nat)
    requires 2 <= i <= |matching|
    ensures r <= i - 2
  {
    if i == 2 then 0
    else
      var row := matching[i - 1];
      SkippedRows(matching, assets, remote, i - 1) + if |row| >= 4 && RowSkipped(row, assets, remote) then 1 else 0
  }

  /** A row that is neither skipped nor stops the run sends exactly one title update. */
  lemma RowCounts(p: Progress, row: seq<string>, names: seq<string>, labels: seq<string>, assets: seq<ObjectDTO>, remote: Remote)
    requires |row| >= 2 && InputRow(p, row, names, labels, assets, remote).halt == Running
    ensures var q := InputRow(p, row, names, labels, assets, remote);
      if RowSkipped(row, assets, remote)
      then q.calls == p.calls && |q.notAdded| <= |p.notAdded| + 1
      else TitleCalls(q.calls) == TitleCalls(p.calls) + 1 && q.notAdded == p.notAdded
  {
    var q := InputRow(p, row, names, labels, assets, remote);
    if RowSkipped(row, assets, remote) {
      var k := RowAssetID(row, assets);
      assert q.notAdded.Keys <= p.notAdded.Keys + {k};
      SubsetSize(q.notAdded.Keys, p.notAdded.Keys + {k});
    } else {
      var cells := CellsUpTo(row, names, labels, FirstMetadataColumn, |row|, SkipSingle);
      var id := RowAssetID(row, assets);
      TitleCallsAppend(p.calls, TitleCall(id, row[3]));
      TitleCallsAppend(p.calls + [TitleCall(id, row[3])], MetadataCall(id, cells.values));
    }
  }

  /**
   * On a run that reaches the end of the table, every row that was not
   * skipped sent exactly one title update, and the failure map has at most
   * one entry per skipped row.
   */
  lemma {:induction false} CompletedRunCounts(matching: seq<seq<string>>, assets: seq<ObjectDTO>, remote: Remote, i: nat)
    requires 2 <= i <= |matching|
    requires RowsUpTo(matching, assets, remote, i).halt == Running
    ensures TitleCalls(RowsUpTo(matching, assets, remote, i).calls) == i - 2 - SkippedRows(matching, assets, remote, i)
    ensures |RowsUpTo(matching, assets, remote, i).notAdded| <= SkippedRows(matching, assets, remote, i)
  {
    if i > 2 {
      var prev := RowsUpTo(matching, assets, remote, i - 1);
      assert prev.halt == Running;
      CompletedRunCounts(matching, assets, remote, i - 1);
      RowCounts(prev, matching[i - 1], matching[0], matching[1], assets, remote);
    }
  }

  /**
   * The success count as intended: the data rows less the rows skipped.
   * On a completed run it is the number of assets whose title and metadata
   * were updated.
   */
  function UpdatedCount(matching: seq<seq<string>>, assets: seq<ObjectDTO>, remote: Remote): (r: nat)
    requires |matching| >= 2
    ensures r <= |matching| - 2
  {
    |matching| - 2 - SkippedRows(matching, assets, remote, |matching|)
  }

  /** On a completed run the intended count is the number of title updates sent, and the reported count is never below it. */
  lemma UpdatedCountIsExact(matching: seq<seq<string>>, assets: seq<ObjectDTO>, remote: Remote)
    requires |matching| >= 2
    requires RowsUpTo(matching, assets, remote, |matching|).halt == Running
    ensures UpdatedCount(matching, assets, remote) == TitleCalls(RowsUpTo(matching, assets, remote, |matching|).calls)
    ensures |matching| - 2 - |RowsUpTo(matching, assets, remote, |matching|).notAdded| >= UpdatedCount(matching, assets, remote)
  {
    CompletedRunCounts(matching, assets, remote, |matching|);
  }

  /** A remote on which nothing is a UUID and every update succeeds. */
  const NoUuidRemote := Remote(
    _ => false,
    (_, _) => Reply(AssetsDomain.EmptyDTO, None),
    (_, _) => None,
    (_, _) => None)

  /** A view with one field, labelled "Genre". */
  const GenreView: seq<IconikioTypes.ViewField> := [IconikioTypes.ViewField("genre", "Genre")]

  /** A sheet with the expected headers plus "Genre", and the same data row twice. */
  const DuplicateSheet: seq<seq<string>> :=
    [["id", "original_name", "size", "title", "Genre"],
     ["x", "a.mov", "0", "t", "g"],
     ["x", "a.mov", "0", "t", "g"]]

  /** The rows `Utils.MatchedTable` makes of `DuplicateSheet`: "size" is dropped from each data row. */
  const DuplicateMatched: seq<seq<string>> :=
    [["id", "original_name", "size", "title", "size", "genre"],
     ["id", "original_name", "title", "Genre"],
     ["x", "a.mov", "t", "g"],
     ["x", "a.mov", "t", "g"]]

  lemma DuplicateHeaderRows()
    ensures Utils.HeaderLabels(DuplicateSheet[0], GenreView) == DuplicateMatched[1]
    ensures Utils.HeaderNames(DuplicateSheet[0], GenreView) == DuplicateMatched[0]
  {
    var headers := DuplicateSheet[0];
    assert headers[4] == "Genre" && Utils.FieldFor(GenreView, "Genre") == Some(GenreView[0]);
    assert Utils.LabelsFrom(Utils.LabelPrefix, headers, GenreView, 4) == Utils.LabelPrefix;
    assert Utils.NamesFrom(Utils.NamePrefix, headers, GenreView, 4) == Utils.NamePrefix;
  }

  lemma DuplicateProjection(data: seq<string>)
    requires data == DuplicateSheet[1]
    ensures Utils.Project(data, DuplicateSheet[0], DuplicateMatched[1]) == DuplicateMatched[2]
  {
    var headers, labels := DuplicateSheet[0], DuplicateMatched[1];
    assert "id" in labels && "original_name" in labels && "size" !in labels && "title" in labels && "Genre" in labels;
    assert Utils.ProjectUpTo(data, headers, labels, 1) == ["x"];
    assert Utils.ProjectUpTo(data, headers, labels, 2) == ["x", "a.mov"];
    assert Utils.ProjectUpTo(data, headers, labels, 3) == ["x", "a.mov"];
    assert Utils.ProjectUpTo(data, headers, labels, 4) == ["x", "a.mov", "t"];
  }

  lemma DuplicateTable()
    ensures Utils.RowsCoverHeader(DuplicateSheet)
    ensures Utils.MatchedTable(GenreView, DuplicateSheet) == DuplicateMatched
  {
    DuplicateHeaderRows();
    DuplicateProjection(DuplicateSheet[1]);
    DuplicateProjection(DuplicateSheet[2]);
  }

  /**
   * Two rows naming the same unknown asset are both skipped but leave one
   * entry in the failure map, keyed by the asset ID: `UpdateIconik` on this
   * sheet passes the header test and reports one asset updated where none
   * was.
   */
  lemma DuplicateSkipsOverReport()
    ensures HeadersMatch(DuplicateSheet[0], ExpectedHeaders) == Some(true) && Utils.RowsCoverHeader(DuplicateSheet)
    ensures var matching := Utils.MatchedTable(GenreView, DuplicateSheet);
      var run := RowsUpTo(matching, [], NoUuidRemote, |DuplicateSheet| + 1);
      run.halt == Running && run.calls == [] && |run.notAdded| == 1 &&
      |DuplicateSheet| - 1 - |run.notAdded| == 1 && UpdatedCount(matching, [], NoUuidRemote) == 0
  {
    assert DuplicateSheet[0][..4] == ExpectedHeaders;
    DuplicateTable();
    var matching := DuplicateMatched;
    var row := matching[2];
    assert RowName(row, []) == "a.mov";
    assert Owner([], "a.mov").err.Some?;
    assert RowSkipped(row, [], NoUuidRemote);
    assert RowAssetID(row, []) == "x";
    var start := Progress(map[], [], Running);
    assert RowsUpTo(matching, [], NoUuidRemote, 2) == start;
    var p3 := RowsUpTo(matching, [], NoUuidRemote, 3);
    assert p3 == InputRow(start, row, matching[0], matching[1], [], NoUuidRemote);
    assert p3 == Progress(map["x" := "a.mov"], [], Running);
    assert RowsUpTo(matching, [], NoUuidRemote, 4) == p3;
    assert SkippedRows(matching, [], NoUuidRemote, 4) == 2;
  }
}
