/**
 * The two searches every generation runs over the objects of a collection:
 * which object owns a file of a given original name, and which object with
 * a given ID has a file at all. Each generation keeps its objects in its own
 * record type; an `Entry` keeps just the object ID and the original names of
 * its files, in order.
 */
module AssetLookup {
  import opened Wrappers

  datatype Entry = Entry(id: string, fileNames: seq<string>)

  /** The index of the first object owning a file named `name`, if any. */
  function FirstOwner(entries: seq<Entry>, name: string): (r: Option<nat>)
    ensures r.Some? ==> r.value < |entries| && name in entries[r.value].fileNames
    ensures r.Some? ==> forall j :: 0 <= j < r.value ==> name !in entries[j].fileNames
    ensures r.None? ==> forall j :: 0 <= j < |entries| ==> name !in entries[j].fileNames
  {
    if |entries| == 0 then None
    else if name in entries[0].fileNames then Some(0)
    else match FirstOwner(entries[1..], name)
      case Some(k) => Some(k + 1)
      case None => None
  }

  /** The index of the first object with ID `id` that has at least one file, if any. */
  function FirstWithFiles(entries: seq<Entry>, id: string): (r: Option<nat>)
    ensures r.Some? ==> r.value < |entries| && entries[r.value].id == id && |entries[r.value].fileNames| > 0
    ensures r.Some? ==> forall j :: 0 <= j < r.value ==> entries[j].id != id || |entries[j].fileNames| == 0
    ensures r.None? ==> forall j :: 0 <= j < |entries| ==> entries[j].id != id || |entries[j].fileNames| == 0
  {
    if |entries| == 0 then None
    else if entries[0].id == id && |entries[0].fileNames| > 0 then Some(0)
    else match FirstWithFiles(entries[1..], id)
      case Some(k) => Some(k + 1)
      case None => None
  }

  /** The index of the last object with ID `id` that has at least one file, if any. */
  function LastWithFiles(entries: seq<Entry>, id: string): (r: Option<nat>)
    ensures r.Some? ==> r.value < |entries| && entries[r.value].id == id && |entries[r.value].fileNames| > 0
    ensures r.Some? ==> forall j :: r.value < j < |entries| ==> entries[j].id != id || |entries[j].fileNames| == 0
    ensures r.None? ==> forall j :: 0 <= j < |entries| ==> entries[j].id != id || |entries[j].fileNames| == 0
  {
    if |entries| == 0 then None
    else
      var last := entries[|entries| - 1];
      if last.id == id && |last.fileNames| > 0 then Some(|entries| - 1)
      else LastWithFiles(entries[..|entries| - 1], id)
  }
}
