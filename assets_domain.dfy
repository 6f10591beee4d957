/** The asset record (GET /API/assets/v1/assets/{id}/) and its DTO. */
module AssetsDomain {

  type Time = int

  datatype Version = Version(
    analyzeStatus: string, archiveStatus: string, createdByUser: string, dateCreated: Time,
    id: string, isOnline: bool, status: string, transcribeStatus: string)

  datatype Asset = Asset(
    analyzeStatus: string, archiveStatus: string, createdByUser: string, dateCreated: Time,
    dateImported: Time, dateModified: Time, id: string, isBlocked: bool, isOnline: bool,
    status: string, title: string, kind: string, updatedByUser: string, versions: seq<Version>)

  datatype DTO = DTO(
    analyzeStatus: string, archiveStatus: string, createdByUser: string, dateCreated: Time,
    dateImported: Time, dateModified: Time, id: string, isBlocked: bool, isOnline: bool,
    status: string, title: string, kind: string, updatedByUser: string, versions: seq<Version>)

  /** Go's zero `DTO{}`, returned by a failed call. */
  const EmptyDTO := DTO("", "", "", 0, 0, 0, "", false, false, "", "", "", "", [])

  /** The conversion drops the versions: the DTO's Versions is always empty. */
  function ToDTO(a: Asset): (r: DTO)
    ensures r.id == a.id && r.title == a.title
    ensures r.versions == []
  {
    DTO(a.analyzeStatus, a.archiveStatus, a.createdByUser, a.dateCreated, a.dateImported,
        a.dateModified, a.id, a.isBlocked, a.isOnline, a.status, a.title, a.kind, a.updatedByUser, [])
  }

  /**
   * Apart from Versions every one of the thirteen fields is copied: assets
   * with the same DTO differ at most in their versions.
   */
  lemma ToDTOKeepsAllButVersions(a: Asset, b: Asset)
    ensures ToDTO(a) == ToDTO(b) <==> a.(versions := []) == b.(versions := [])
  {
  }
}
