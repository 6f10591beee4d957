/**
 * The validate service (internal/core/services/iconik/validate/svcs.go): the
 * filename and asset-ID checks of one CSV record against the objects of a
 * collection. Its schema check is the label-keyed table of `LabelRules`.
 * The remote asset fetch is a parameter: `getAsset(id)` is the error that
 * fetch returns (None for success); `isUuid` stands for uuid.Parse accepting
 * its argument.
 */
module ValidateSvc {
  import opened Wrappers
  import opened CollectionsDomain
  import opened AssetLookup
  import CsvDomain
  import Utils

  /** Some object has a file with this original name. */
  predicate HasFileNamed(objects: seq<Object>, name: string)
  {
    exists k, i :: 0 <= k < |objects| && 0 <= i < |objects[k].files| && objects[k].files[i].originalName == name
  }

  /** Some object with this ID has at least one file. */
  predicate HasAssetWithFiles(objects: seq<Object>, id: string)
  {
    exists k :: 0 <= k < |objects| && objects[k].id == id && |objects[k].files| > 0
  }

  /**
   * `Svc.Filename`: the same search and the same message as
   * `utils.ValidateFilename`, over the objects of the contents record rather
   * than their DTOs; it is that function on the converted objects. Nil
   * exactly when some object has a file with the record's original name,
   * else an error naming the file; the ID written on success goes to the
   * by-value copy of the record and is lost to the caller.
   */
  function Filename(objects: seq<Object>, metadata: CsvDomain.Record): (r: MaybeError)
    ensures r == None <==> HasFileNamed(objects, metadata.originalName)
    ensures r != None ==> r == Some("file " + metadata.originalName + " does not exist in given collection id")
  {
    var dtos := ToObjectDTOs(objects);
    assert HasFileNamed(objects, metadata.originalName) <==> Utils.HasFileNamed(dtos, metadata.originalName) by {
      forall k, i | 0 <= k < |objects| && 0 <= i < |objects[k].files|
        ensures dtos[k].files[i].originalName == objects[k].files[i].originalName
      {
        assert dtos[k] == ToObjectDTO(objects[k]);
      }
    }
    Utils.ValidateFilename(dtos, metadata)
  }

  /**
   * `Svc.AssetID`: a record ID that is not a UUID is rejected before the
   * fetch; any fetch error becomes "not found on iconik servers"; after that
   * the check passes only when an object with that ID has a file.
   */
  function AssetID(objects: seq<Object>, metadata: CsvDomain.Record, isUuid: string -> bool, getAsset: string -> MaybeError): (r: MaybeError)
    ensures r == None <==>
      isUuid(metadata.id) && getAsset(metadata.id) == None && HasAssetWithFiles(objects, metadata.id)
    ensures !isUuid(metadata.id) ==> r == Some("not a valid asset ID")
    ensures isUuid(metadata.id) && getAsset(metadata.id) != None ==>
      r == Some("asset " + metadata.id + " not found on iconik servers")
    ensures isUuid(metadata.id) && getAsset(metadata.id) == None && !HasAssetWithFiles(objects, metadata.id) ==>
      r == Some("asset " + metadata.id + " does not exist in given collection id")
  {
    var id := metadata.id;
    if !isUuid(id) then Some("not a valid asset ID")
    else if getAsset(id) != None then Some("asset " + id + " not found on iconik servers")
    else
      var entries := Utils.EntriesOf(ToObjectDTOs(objects));
      match FirstWithFiles(entries, id)
      case Some(k) =>
        assert ToObjectDTOs(objects)[k] == ToObjectDTO(objects[k]);
        None
      case None =>
        assert !HasAssetWithFiles(objects, id) by {
          forall k | 0 <= k < |objects| && objects[k].id == id
            ensures |objects[k].files| == 0
          {
            assert ToObjectDTOs(objects)[k] == ToObjectDTO(objects[k]);
            assert entries[k].id == id;
          }
        }
        Some("asset " + id + " does not exist in given collection id")
  }

  /** A non-UUID ID is decided without the fetch: the fetch's answer does not matter. */
  lemma AssetIDNoFetchForBadId(objects: seq<Object>, metadata: CsvDomain.Record, isUuid: string -> bool,
                               fetch1: string -> MaybeError, fetch2: string -> MaybeError)
    requires !isUuid(metadata.id)
    ensures AssetID(objects, metadata, isUuid, fetch1) == AssetID(objects, metadata, isUuid, fetch2)
  {
  }

  /** An object with the right ID but no files does not make the check pass. */
  lemma AssetWithoutFilesFails(objects: seq<Object>, metadata: CsvDomain.Record, isUuid: string -> bool, getAsset: string -> MaybeError)
    requires isUuid(metadata.id) && getAsset(metadata.id) == None
    requires forall k :: 0 <= k < |objects| && objects[k].id == metadata.id ==> objects[k].files == []
    ensures AssetID(objects, metadata, isUuid, getAsset) == Some("asset " + metadata.id + " does not exist in given collection id")
  {
  }
}
