/**
 * The assets service (internal/core/services/iconik/assets/assets/svcs.go):
 * thin wrappers over the assets API and the `ValidateAsset` check. The API
 * calls are parameters: `getAsset(path, id)` and `patchAsset(path, id,
 * payload)` stand for the facade's GetAsset and PatchAsset; `isUuid` stands
 * for uuid.Parse accepting its argument.
 */
module AssetsSvc {
  import opened Wrappers
  import AssetsDomain

  /** The path of the assets endpoint. */
  const AssetsPath := "/API/assets/v1/assets/"

  type AssetReply = Reply<AssetsDomain.DTO, Error>

  /** `GetAsset`: the API's DTO, or the empty DTO beside the API's error. */
  function GetAsset(getAsset: (string, string) -> AssetReply, path: string, assetID: string): (r: AssetReply)
    ensures r.err == getAsset(path, assetID).err
    ensures r.err.None? ==> r.value == getAsset(path, assetID).value
    ensures r.err.Some? ==> r.value == AssetsDomain.EmptyDTO
  {
    var reply := getAsset(path, assetID);
    if reply.err.Some? then Reply(AssetsDomain.EmptyDTO, reply.err) else reply
  }

  /** `UpdateAsset`: PatchAsset with the same path, ID and payload, emptied on error. */
  function UpdateAsset<P>(patchAsset: (string, string, P) -> AssetReply, path: string, assetID: string, payload: P): (r: AssetReply)
    ensures r.err == patchAsset(path, assetID, payload).err
    ensures r.err.None? ==> r.value == patchAsset(path, assetID, payload).value
    ensures r.err.Some? ==> r.value == AssetsDomain.EmptyDTO
  {
    var reply := patchAsset(path, assetID, payload);
    if reply.err.Some? then Reply(AssetsDomain.EmptyDTO, reply.err) else reply
  }

  /**
   * `ValidateAsset`: a non-UUID is rejected before any request; an error of
   * the fetch is returned unchanged; a successful fetch still ends in an
   * error, so the check never passes.
   */
  function ValidateAsset(isUuid: string -> bool, getAsset: (string, string) -> AssetReply, assetID: string): (r: MaybeError)
    ensures r.Some?
    ensures !isUuid(assetID) ==> r == Some("not a valid asset ID")
    ensures isUuid(assetID) && getAsset(AssetsPath, assetID).err.Some? ==> r == getAsset(AssetsPath, assetID).err
    ensures isUuid(assetID) && getAsset(AssetsPath, assetID).err.None? ==>
              r == Some("asset " + assetID + " does not exist in given collection id")
  {
    if !isUuid(assetID) then Some("not a valid asset ID")
    else
      var reply := GetAsset(getAsset, AssetsPath, assetID);
      if reply.err.Some? then reply.err
      else Some("asset " + assetID + " does not exist in given collection id")
  }

  /** For a non-UUID the outcome does not depend on the API: no request is made. */
  lemma NoFetchForBadId(isUuid: string -> bool, api1: (string, string) -> AssetReply, api2: (string, string) -> AssetReply, assetID: string)
    requires !isUuid(assetID)
    ensures ValidateAsset(isUuid, api1, assetID) == ValidateAsset(isUuid, api2, assetID)
  {
  }
}
