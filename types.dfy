/** Shared vocabulary of the multi-asset pet contract: identifiers, the error
    enumeration, the stored records and the result wrappers. */
module Types {

  /** One byte, as produced by the hash behind the pseudo-random draw. */
  newtype Byte = x: int | 0 <= x < 256

  /** `AssetId` (a u32 in the source), the equippable group and part ids. */
  type AssetId = nat
  type EquippableGroupId = nat
  type PartId = nat

  /** Accounts are opaque comparable identifiers. */
  type Account = nat

  /** The PSP34 token identifier: one numeric variant per width, or raw bytes. */
  datatype Id =
    | U8(n: nat)
    | U16(n: nat)
    | U32(n: nat)
    | U64(n: nat)
    | U128(n: nat)
    | Bytes(bytes: seq<Byte>)

  /** The error kinds the core returns (RMRK errors, plus the PSP34
      "token does not exist" and the access-control "missing role" errors
      that the collaborators return). */
  datatype Error =
    | AssetIdNotFound
    | AssetIdAlreadyExists
    | AlreadyAddedAsset
    | AddingPendingAsset
    | NotTokenOwner
    | BadPriorityLength
    | InvalidAssetId
    | InvalidTokenId
    | AcceptedAssetsMissing
    | TimeHasNotPassed
    | NotEnoughApple
    | NotEnoughMoney
    | InvalidAccountId
    | TokenNotExists
    | MissingRole

  /** `Result<()>`. */
  datatype Outcome = Ok | Err(error: Error)

  /** `Result<T>`. */
  datatype Result<T> = Success(value: T) | Failure(error: Error)

  datatype Option<T> = None | Some(value: T)

  /** A catalog entry of the collection. */
  datatype Asset = Asset(equippableGroupId: EquippableGroupId, assetUri: string, partIds: seq<PartId>)

  /** The pet status snapshot stored per token. */
  datatype Status = Status(hungry: nat, health: nat, happy: nat)
}
