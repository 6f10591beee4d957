/**
 * The records pkg/iconikio works on. The collection objects and the CSV
 * records it reads are not declared in that package; their shape is the one
 * its code uses (an object with an ID and files carrying an original name; a
 * record with Added, ID, OriginalName, Title and MetadataValues).
 */
module IconikioTypes {

  /** A field of a metadata view: machine name and human label. */
  datatype ViewField = ViewField(name: string, labelText: string)

  datatype File = File(originalName: string)

  /** An object of a collection's contents. */
  datatype Object = Object(id: string, files: seq<File>)
}
