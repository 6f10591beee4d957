/**
 * The search service (internal/core/services/iconik/search/svcs.go): a
 * search that turns the result's `errors` member into an error, and the two
 * single-asset searches by ID and by file name within a collection.
 *
 * `api(path, document)` stands for marshalling the search document and the
 * facade's Search call; `show` for the `%v` rendering of the decoded
 * `errors` member; `isUuid` for uuid.Parse accepting its argument.
 */
module SearchSvc {
  import opened Wrappers
  import opened Json
  import opened SearchDomain

  type SearchApi = (string, Search) -> Reply<ResultsDTO, Error>

  /**
   * The search document both single-asset searches send (and the export
   * sends with an empty query): assets and collections, newest first,
   * restricted to the active objects below `collectionID`.
   */
  function SearchDocument(query: string, collectionID: string): (s: Search)
    ensures s.query == query && s.searchAfter == []
    ensures s.filter == Filter("AND", [Term("ancestor_collections", [collectionID]), Term("status", ["ACTIVE"])])
    ensures s.docTypes == ["assets", "collections"] && s.sort == [SortSpec("date_created", "desc")]
  {
    Search(
      ["assets", "collections"],
      ["object_type", "media_type", "archive_status", "type", "format", "is_online", "approval_status"],
      ["id", "title", "files", "in_collections", "metadata", "files.size", "media_type"],
      [SortSpec("date_created", "desc")],
      query,
      Filter("AND", [Term("ancestor_collections", [collectionID]), Term("status", ["ACTIVE"])]),
      [FacetsFilter("object_type", ["assets"])],
      ["title", "description", "segment_text", "file_names", "metadata", "transcription_text"],
      [])
  }

  /** `Search`: an API error, or results whose `errors` member is set, give the empty result and an error. */
  function SearchResults(api: SearchApi, show: Json -> string, path: string, doc: Search): (r: Reply<ResultsDTO, Error>)
    ensures api(path, doc).err.Some? ==> r == Reply(EmptyResults, api(path, doc).err)
    ensures api(path, doc).err.None? && !IsNil(api(path, doc).value.errors) ==>
              r == Reply(EmptyResults, Some(show(api(path, doc).value.errors)))
    ensures r.err.None? <==> api(path, doc).err.None? && IsNil(api(path, doc).value.errors)
    ensures r.err.None? ==> r.value == api(path, doc).value
  {
    var reply := api(path, doc);
    if reply.err.Some? then Reply(EmptyResults, reply.err)
    else if !IsNil(reply.value.errors) then Reply(EmptyResults, Some(show(reply.value.errors)))
    else reply
  }

  /** The result rule both single-asset searches share: the first object found, or "asset not found". */
  function FirstFound(api: SearchApi, show: Json -> string, path: string, doc: Search): (r: Reply<ObjectDTO, Error>)
    ensures var s := SearchResults(api, show, path, doc);
      (s.err.Some? ==> r == Reply(EmptyObject, s.err)) &&
      (s.err.None? && |s.value.objects| == 0 ==> r == Reply(EmptyObject, Some("asset not found"))) &&
      (s.err.None? && |s.value.objects| > 0 ==> r == Reply(s.value.objects[0], None))
  {
    var results := SearchResults(api, show, path, doc);
    if results.err.Some? then Reply(EmptyObject, results.err)
    else if |results.value.objects| == 0 then Reply(EmptyObject, Some("asset not found"))
    else Reply(results.value.objects[0], None)
  }

  /** `ValidateAndSearchAssetID`: a non-UUID is rejected before any search; otherwise the ID is the query. */
  function ValidateAndSearchAssetID(api: SearchApi, show: Json -> string, isUuid: string -> bool, path: string,
                                    assetID: string, collectionID: string): (r: Reply<ObjectDTO, Error>)
    ensures !isUuid(assetID) ==> r == Reply(EmptyObject, Some("not a valid asset ID"))
    ensures isUuid(assetID) ==> r == FirstFound(api, show, path, SearchDocument(assetID, collectionID))
  {
    if !isUuid(assetID) then Reply(EmptyObject, Some("not a valid asset ID"))
    else FirstFound(api, show, path, SearchDocument(assetID, collectionID))
  }

  /** `ValidateAndSearchFilename`: no format check; the file name is the query. */
  function ValidateAndSearchFilename(api: SearchApi, show: Json -> string, path: string,
                                     filename: string, collectionID: string): (r: Reply<ObjectDTO, Error>)
    ensures r == FirstFound(api, show, path, SearchDocument(filename, collectionID))
  {
    FirstFound(api, show, path, SearchDocument(filename, collectionID))
  }

  /** The two searches differ only in the UUID gate: for a UUID they give the same answer. */
  lemma SearchesAgreeOnUuids(api: SearchApi, show: Json -> string, isUuid: string -> bool, path: string, id: string, collectionID: string)
    requires isUuid(id)
    ensures ValidateAndSearchAssetID(api, show, isUuid, path, id, collectionID)
            == ValidateAndSearchFilename(api, show, path, id, collectionID)
  {
  }

  /**
   * A search that succeeds returns an object the API listed first, and a
   * search that fails returns the empty object.
   */
  lemma FoundIsFirstListed(api: SearchApi, show: Json -> string, path: string, doc: Search)
    ensures var r := FirstFound(api, show, path, doc);
      r.err.None? <==> api(path, doc).err.None? && IsNil(api(path, doc).value.errors) && |api(path, doc).value.objects| > 0
    ensures var r := FirstFound(api, show, path, doc);
      r.err.None? ==> r.value == api(path, doc).value.objects[0]
    ensures FirstFound(api, show, path, doc).err.Some? ==> FirstFound(api, show, path, doc).value == EmptyObject
  {
  }
}
