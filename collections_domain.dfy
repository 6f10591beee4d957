/**
 * The collection-contents records (GET /API/assets/v1/collections/{id}/contents)
 * and their conversion to the DTOs the services consume.
 */
module CollectionsDomain {
  import opened Json

  datatype File = File(
    directoryPath: string, fileSetId: string, formatId: string, id: string, name: string,
    originalName: string, size: int, status: string, storageId: string, storageMethod: string)

  datatype Object = Object(id: string, title: string, files: seq<File>, objectType: string)

  /** `errors` is the decoded `errors` member; `pages` the page count. */
  datatype Contents = Contents(objects: seq<Object>, errors: Json, pages: int)

  datatype FileDTO = FileDTO(
    directoryPath: string, fileSetId: string, formatId: string, id: string, name: string,
    originalName: string, size: int, status: string, storageId: string, storageMethod: string)

  datatype ObjectDTO = ObjectDTO(
    id: string, metadata: map<string, seq<Json>>, title: string, files: seq<FileDTO>, objectType: string)

  datatype ContentsDTO = ContentsDTO(objects: seq<ObjectDTO>, errors: Json, pages: int)

  /** Copies each of the ten file fields. */
  function ToFileDTO(f: File): (r: FileDTO)
    ensures r.originalName == f.originalName && r.size == f.size && r.id == f.id
    ensures r.directoryPath == f.directoryPath && r.fileSetId == f.fileSetId && r.formatId == f.formatId
    ensures r.name == f.name && r.status == f.status && r.storageId == f.storageId && r.storageMethod == f.storageMethod
  {
    FileDTO(f.directoryPath, f.fileSetId, f.formatId, f.id, f.name,
            f.originalName, f.size, f.status, f.storageId, f.storageMethod)
  }

  /** All ten fields are copied: two files with the same DTO are the same file. */
  lemma ToFileDTOInjective(f: File, g: File)
    ensures ToFileDTO(f) == ToFileDTO(g) ==> f == g
  {
  }

  function ToObjectDTO(o: Object): (r: ObjectDTO)
    ensures r.id == o.id && r.title == o.title && r.objectType == o.objectType
    ensures |r.files| == |o.files|
    ensures forall i :: 0 <= i < |o.files| ==> r.files[i] == ToFileDTO(o.files[i])
    ensures r.metadata == map[]
  {
    ObjectDTO(o.id, map[], o.title, seq(|o.files|, i requires 0 <= i < |o.files| => ToFileDTO(o.files[i])), o.objectType)
  }

  /** Nothing but Metadata is dropped: objects with the same DTO are equal. */
  lemma {:induction false} ToObjectDTOInjective(o: Object, p: Object)
    ensures ToObjectDTO(o) == ToObjectDTO(p) ==> o == p
  {
    if ToObjectDTO(o) == ToObjectDTO(p) {
      assert |o.files| == |p.files|;
      forall i | 0 <= i < |o.files| ensures o.files[i] == p.files[i] {
        ToFileDTOInjective(o.files[i], p.files[i]);
      }
    }
  }

  /** The objects converted one by one, in order. */
  function ToObjectDTOs(objects: seq<Object>): (r: seq<ObjectDTO>)
    ensures |r| == |objects|
    ensures forall i :: 0 <= i < |objects| ==> r[i] == ToObjectDTO(objects[i])
  {
    seq(|objects|, i requires 0 <= i < |objects| => ToObjectDTO(objects[i]))
  }

  function ToContentsDTO(c: Contents): (r: ContentsDTO)
    ensures |r.objects| == |c.objects|
    ensures forall i :: 0 <= i < |c.objects| ==> r.objects[i] == ToObjectDTO(c.objects[i])
    ensures r.errors == JNull && r.pages == 0
  {
    ContentsDTO(ToObjectDTOs(c.objects), JNull, 0)
  }

  /**
   * The conversion forgets the page count and the errors: two pages with the
   * same objects convert to the same DTO whatever their Pages and Errors.
   */
  lemma ToContentsDTOForgetsPaging(c: Contents, errors: Json, pages: int)
    ensures ToContentsDTO(c) == ToContentsDTO(c.(errors := errors, pages := pages))
  {
  }
}
