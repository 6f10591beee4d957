/**
 * The search request and result records (POST /API/search/v1/search/) and the
 * conversion of results to the DTOs the services consume. Timestamps are
 * opaque values (`Time`); `interface{}` fields are decoded JSON.
 */
module SearchDomain {
  import opened Json

  type Time = int

  datatype SortSpec = SortSpec(name: string, order: string)
  datatype Term = Term(name: string, valueIn: seq<string>)
  datatype FacetsFilter = FacetsFilter(name: string, valueIn: seq<string>)
  datatype Filter = Filter(operator: string, terms: seq<Term>)

  /** The search document sent to the search endpoint. */
  datatype Search = Search(
    docTypes: seq<string>, facets: seq<string>, includeFields: seq<string>, sort: seq<SortSpec>,
    query: string, filter: Filter, facetsFilters: seq<FacetsFilter>, searchFields: seq<string>,
    searchAfter: seq<Json>)

  datatype File = File(id: string, name: string, originalName: string, size: int)

  datatype Version = Version(
    analyzeStatus: string, archiveStatus: string, createdByUser: string, dateCreated: Time,
    id: string, isOnline: bool, status: string, transcribeStatus: string)

  datatype Object = Object(
    sort: seq<Json>, analyzeStatus: string, ancestorCollections: seq<string>, archiveStatus: string,
    category: Json, createdByUser: string, createdByUserInfo: Json, dateCreated: Time,
    dateModified: Time, duration: string, externalLink: Json, files: seq<File>, format: string,
    id: string, inCollections: seq<string>, isBlocked: bool, isOnline: bool, mediaType: string,
    metadata: map<string, seq<Json>>, objectType: string, permissions: seq<Json>, position: int,
    timeEndMilliseconds: Json, timeStartMilliseconds: Json, title: string, kind: string,
    versions: seq<Version>, versionsNumber: int, warning: Json)

  datatype Results = Results(
    firstUrl: string, lastUrl: string, nextUrl: string, objects: seq<Object>, page: int,
    pages: int, perPage: int, prevUrl: string, total: int, errors: Json)

  datatype FileDTO = FileDTO(id: string, name: string, originalName: string, size: int)

  datatype VersionDTO = VersionDTO(
    analyzeStatus: string, archiveStatus: string, createdByUser: string, dateCreated: Time,
    id: string, isOnline: bool, status: string, transcribeStatus: string)

  datatype ObjectDTO = ObjectDTO(
    sort: seq<Json>, analyzeStatus: string, ancestorCollections: seq<string>, archiveStatus: string,
    category: Json, createdByUser: string, createdByUserInfo: Json, dateCreated: Time,
    dateModified: Time, duration: string, externalLink: Json, files: seq<FileDTO>, format: string,
    id: string, inCollections: seq<string>, isBlocked: bool, isOnline: bool, mediaType: string,
    metadata: map<string, seq<Json>>, objectType: string, permissions: seq<Json>, position: int,
    timeEndMilliseconds: Json, timeStartMilliseconds: Json, title: string, kind: string,
    versions: seq<VersionDTO>, versionsNumber: int, warning: Json)

  datatype ResultsDTO = ResultsDTO(
    firstUrl: string, lastUrl: string, nextUrl: string, objects: seq<ObjectDTO>, page: int,
    pages: int, perPage: int, prevUrl: string, total: int, errors: Json)

  /** The empty result a failed call returns (Go's zero `ResultsDTO{}`). */
  const EmptyResults := ResultsDTO("", "", "", [], 0, 0, 0, "", 0, JNull)

  /** Go's zero `ObjectDTO{}`. */
  const EmptyObject := ObjectDTO(
    [], "", [], "", JNull, "", JNull, 0, 0, "", JNull, [], "", "", [], false, false, "", map[], "", [],
    0, JNull, JNull, "", "", [], 0, JNull)

  function ToFileDTO(f: File): (r: FileDTO)
    ensures r.originalName == f.originalName && r.size == f.size
  {
    FileDTO(f.id, f.name, f.originalName, f.size)
  }

  /** Every file field is copied: two files with the same DTO are the same file. */
  lemma ToFileDTOInjective(f: File, g: File)
    ensures ToFileDTO(f) == ToFileDTO(g) ==> f == g
  {
  }

  function ToVersionDTO(v: Version): (r: VersionDTO)
    ensures r.id == v.id && r.status == v.status
  {
    VersionDTO(v.analyzeStatus, v.archiveStatus, v.createdByUser, v.dateCreated,
               v.id, v.isOnline, v.status, v.transcribeStatus)
  }

  /** Every version field is copied. */
  lemma ToVersionDTOInjective(v: Version, w: Version)
    ensures ToVersionDTO(v) == ToVersionDTO(w) ==> v == w
  {
  }

  function ToObjectDTO(o: Object): (r: ObjectDTO)
    ensures |r.files| == |o.files|
    ensures forall i :: 0 <= i < |o.files| ==> r.files[i] == ToFileDTO(o.files[i])
    ensures |r.versions| == |o.versions|
    ensures forall i :: 0 <= i < |o.versions| ==> r.versions[i] == ToVersionDTO(o.versions[i])
    ensures r.id == o.id && r.title == o.title && r.metadata == o.metadata && r.sort == o.sort
  {
    ObjectDTO(
      o.sort, o.analyzeStatus, o.ancestorCollections, o.archiveStatus, o.category, o.createdByUser,
      o.createdByUserInfo, o.dateCreated, o.dateModified, o.duration, o.externalLink,
      seq(|o.files|, i requires 0 <= i < |o.files| => ToFileDTO(o.files[i])),
      o.format, o.id, o.inCollections, o.isBlocked, o.isOnline, o.mediaType, o.metadata,
      o.objectType, o.permissions, o.position, o.timeEndMilliseconds, o.timeStartMilliseconds,
      o.title, o.kind,
      seq(|o.versions|, i requires 0 <= i < |o.versions| => ToVersionDTO(o.versions[i])),
      o.versionsNumber, o.warning)
  }

  /** No field of a result object is lost: objects with the same DTO are equal. */
  lemma {:induction false} ToObjectDTOInjective(o: Object, p: Object)
    ensures ToObjectDTO(o) == ToObjectDTO(p) ==> o == p
  {
    if ToObjectDTO(o) == ToObjectDTO(p) {
      forall i | 0 <= i < |o.files| ensures o.files[i] == p.files[i] {
        ToFileDTOInjective(o.files[i], p.files[i]);
      }
      forall i | 0 <= i < |o.versions| ensures o.versions[i] == p.versions[i] {
        ToVersionDTOInjective(o.versions[i], p.versions[i]);
      }
    }
  }

  function ToResultsDTO(r: Results): (d: ResultsDTO)
    ensures |d.objects| == |r.objects|
    ensures forall i :: 0 <= i < |r.objects| ==> d.objects[i] == ToObjectDTO(r.objects[i])
    ensures d.page == r.page && d.pages == r.pages && d.perPage == r.perPage && d.total == r.total
    ensures d.firstUrl == r.firstUrl && d.lastUrl == r.lastUrl && d.nextUrl == r.nextUrl
    ensures d.prevUrl == r.prevUrl && d.errors == r.errors
  {
    ResultsDTO(r.firstUrl, r.lastUrl, r.nextUrl,
               seq(|r.objects|, i requires 0 <= i < |r.objects| => ToObjectDTO(r.objects[i])),
               r.page, r.pages, r.perPage, r.prevUrl, r.total, r.errors)
  }

  /** Unlike the collections conversion, nothing is lost: the conversion is injective. */
  lemma {:induction false} ToResultsDTOInjective(r: Results, s: Results)
    ensures ToResultsDTO(r) == ToResultsDTO(s) ==> r == s
  {
    if ToResultsDTO(r) == ToResultsDTO(s) {
      forall i | 0 <= i < |r.objects| ensures r.objects[i] == s.objects[i] {
        ToObjectDTOInjective(r.objects[i], s.objects[i]);
      }
    }
  }
}
