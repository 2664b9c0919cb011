/** The storage and messages of the multi-asset pet contract: the asset
    catalog of the collection, the pending and accepted asset lists of each
    token, the lazily decaying pet status, and the apple / money economy
    with staking and a daily bonus.

    The block timestamp (`now`, milliseconds) and the caller are explicit
    parameters. The PSP34 owner registry and the CONTRIBUTOR role are the
    fields `owners` and `contributors`. The first byte of the Keccak-256 hash
    of (timestamp, salt) is the function `digest`. A message that returns an
    error leaves storage as it was, as the host reverts it. */
module MultiAssetContract {
  import opened Types
  import opened AssetLists
  import opened Ledger
  import opened TimeGate
  import opened PetStatus
  import opened Staking
  import opened Decimal

  const ApplePrice: nat := 20
  const DailyBonusAmount: nat := 100
  const DefaultApples: nat := 10
  const DefaultMoney: nat := 500
  const DefaultBadUri: string := "ipfs://QmYJhYes1kzp2soWYEYKzvA84V8YivL8BCpsnN773xyufr/"
  const DefaultNormalUri: string := "ipfs://QmXtnr9aEJVywiLs1keZdyiKbQwignZT3FhwKYivF15oZp/"
  const DefaultGoodUri: string := "ipfs://QmZAdpKf4zr9x2vX26gU6LkG8gtj44GhoGMbWJAa2HsVzt/"

  /** `ensure_token_owner`: the caller must be the owner. */
  function EnsureTokenOwner(owner: Account, caller: Account): (r: Outcome)
    ensures r == Ok <==> caller == owner
    ensures r != Ok ==> r == Err(NotTokenOwner)
  {
    if caller == owner then Ok else Err(NotTokenOwner)
  }

  /** `is_account_id`: the caller acts for itself. */
  function IsAccountId(account: Account, caller: Account): (r: bool)
    ensures r <==> caller == account
  {
    caller == account
  }

  class MultiAsset {
    // Asset catalog of the collection.
    var entries: map<AssetId, Asset>
    var assetIds: seq<AssetId>
    var catalogAddress: map<AssetId, Option<Account>>

    // Per-token asset lists.
    var accepted: Lists
    var pending: Lists

    // Pet status.
    var status: map<Id, Status>
    var lastEaten: map<Id, nat>
    var normalUri: string
    var goodUri: string
    var badUri: string
    var salt: nat

    // Economy.
    var apples: map<Account, nat>
    var money: map<Account, nat>
    var stakedMoney: map<Account, nat>
    var lastStaked: map<Account, nat>
    var lastBonus: map<Account, nat>

    // Collaborators: PSP34 ownership and the CONTRIBUTOR role.
    var owners: map<Id, Account>
    var contributors: set<Account>
    const digest: (nat, nat) -> Byte

    /** The catalog lists each entry once, and every entry has a catalog address. */
    ghost predicate CatalogValid()
      reads this
    {
      && NoDup(assetIds)
      && (forall a :: a in entries <==> a in assetIds)
      && entries.Keys == catalogAddress.Keys
    }

    ghost predicate Valid()
      reads this
    {
      CatalogValid() && LedgerValid(accepted, pending)
    }

    /** Default storage: everything empty and zero. */
    constructor (owners: map<Id, Account>, contributors: set<Account>, digest: (nat, nat) -> Byte)
      ensures Valid()
      ensures this.owners == owners && this.contributors == contributors && this.digest == digest
      ensures entries == map[] && assetIds == [] && catalogAddress == map[]
      ensures accepted == map[] && pending == map[]
      ensures status == map[] && lastEaten == map[] && salt == 0
      ensures normalUri == [] && goodUri == [] && badUri == []
      ensures apples == map[] && money == map[] && stakedMoney == map[]
      ensures lastStaked == map[] && lastBonus == map[]
    {
      this.owners, this.contributors, this.digest := owners, contributors, digest;
      entries, assetIds, catalogAddress := map[], [], map[];
      accepted, pending := map[], map[];
      status, lastEaten, salt := map[], map[], 0;
      normalUri, goodUri, badUri := [], [], [];
      apples, money, stakedMoney := map[], map[], map[];
      lastStaked, lastBonus := map[], map[];
      new;
      forall t ensures TokenListsValid(ListOf(accepted, t), ListOf(pending, t)) {
      }
    }

    // ---------------------------------------------------------------- guards

    /** `only_role(CONTRIBUTOR)`. */
    function OnlyContributor(caller: Account): (r: Outcome)
      reads this
      ensures r == Ok <==> caller in contributors
      ensures r != Ok ==> r == Err(MissingRole)
    {
      if caller in contributors then Ok else Err(MissingRole)
    }

    /** `ensure_exists_and_get_owner`. */
    function EnsureExistsAndGetOwner(token: Id): (r: Result<Account>)
      reads this
      ensures r.Success? <==> token in owners
      ensures r.Success? ==> r.value == owners[token]
      ensures r.Failure? ==> r.error == TokenNotExists
    {
      if token in owners then Success(owners[token]) else Failure(TokenNotExists)
    }

    /** `is_nft_owner`. The source unwraps the owner lookup, so for a token
        without an owner the message traps and is reverted: `None` here. */
    function IsNftOwner(token: Id, caller: Account): (r: Option<bool>)
      reads this
      ensures r.None? <==> token !in owners
      ensures r.Some? ==> (r.value <==> owners[token] == caller)
    {
      if token in owners then Some(owners[token] == caller) else None
    }

    // ------------------------------------------------------------ catalog

    /** `ensure_asset_id_is_available`. */
    function EnsureAssetIdIsAvailable(asset: AssetId): (r: Outcome)
      reads this
      ensures r == Ok <==> asset !in entries
      ensures r != Ok ==> r == Err(AssetIdAlreadyExists)
    {
      if asset in entries then Err(AssetIdAlreadyExists) else Ok
    }

    /** `add_asset_entry`: a contributor registers a fresh asset id. */
    method AddAssetEntry(caller: Account, catalog: Option<Account>, asset: AssetId,
                         group: EquippableGroupId, uri: string, partIds: seq<PartId>) returns (r: Outcome)
      modifies this`entries, this`assetIds, this`catalogAddress
      ensures caller !in contributors ==> r == Err(MissingRole)
      ensures caller in contributors && asset in old(entries) ==> r == Err(AssetIdAlreadyExists)
      ensures r != Ok ==> entries == old(entries) && assetIds == old(assetIds) && catalogAddress == old(catalogAddress)
      ensures r == Ok <==> caller in contributors && asset !in old(entries)
      ensures r == Ok ==> && entries == old(entries)[asset := Asset(group, uri, partIds)]
                          && assetIds == old(assetIds) + [asset]
                          && catalogAddress == old(catalogAddress)[asset := catalog]
                          && TotalAssets() == old(TotalAssets()) + 1
                          && GetAsset(asset) == Some(Asset(group, uri, partIds))
      ensures r != Ok ==> TotalAssets() == old(TotalAssets())
      ensures old(Valid()) ==> Valid()
    {
      r := OnlyContributor(caller);
      if r != Ok { return; }
      r := EnsureAssetIdIsAvailable(asset);
      if r != Ok { return; }
      entries := entries[asset := Asset(group, uri, partIds)];
      assetIds := assetIds + [asset];
      catalogAddress := catalogAddress[asset := catalog];
    }

    /** `total_assets`: the number of registered entries. */
    function TotalAssets(): (n: nat)
      reads this
      ensures n == |assetIds|
      ensures CatalogValid() ==> forall a :: a in entries ==> exists i :: 0 <= i < n && assetIds[i] == a
    {
      |assetIds|
    }

    /** `get_asset`. */
    function GetAsset(asset: AssetId): (r: Option<Asset>)
      reads this
      ensures r.Some? <==> asset in entries
      ensures r.Some? ==> r.value == entries[asset]
    {
      if asset in entries then Some(entries[asset]) else None
    }

    /** `get_asset_uri`. */
    function GetAssetUri(asset: AssetId): (r: Option<string>)
      reads this
      ensures r.Some? <==> asset in entries
      ensures r.Some? ==> r.value == entries[asset].assetUri
    {
      match GetAsset(asset)
      case Some(a) => Some(a.assetUri)
      case None => None
    }

    /** `get_asset_catalog_address`: the stored address, `None` when unknown. */
    function GetAssetCatalogAddress(asset: AssetId): (r: Option<Account>)
      reads this
      ensures asset in catalogAddress ==> r == catalogAddress[asset]
      ensures asset !in catalogAddress ==> r == None
    {
      if asset in catalogAddress then catalogAddress[asset] else None
    }

    // ------------------------------------------------- per-token asset lists

    /** `add_to_accepted_assets`: append unless already present. */
    method AddToAcceptedAssets(token: Id, asset: AssetId)
      modifies this`accepted
      ensures accepted == old(accepted)[token := AppendIfAbsent(old(ListOf(accepted, token)), asset)]
    {
      var assets := ListOf(accepted, token);
      if asset !in assets {
        accepted := accepted[token := assets + [asset]];
      }
    }

    /** `add_to_pending_assets`: append unless already present. */
    method AddToPendingAssets(token: Id, asset: AssetId)
      modifies this`pending
      ensures pending == old(pending)[token := AppendIfAbsent(old(ListOf(pending, token)), asset)]
    {
      var assets := ListOf(pending, token);
      if asset !in assets {
        pending := pending[token := assets + [asset]];
      }
    }

    /** `remove_from_pending_assets`. */
    method RemoveFromPendingAssets(token: Id, asset: AssetId) returns (r: Outcome)
      modifies this`pending
      ensures token !in old(pending) ==> r == Err(InvalidAssetId)
      ensures token in old(pending) && asset !in old(pending[token]) ==> r == Err(InvalidTokenId)
      ensures r != Ok ==> pending == old(pending)
      ensures r == Ok <==> token in old(pending) && asset in old(pending[token])
      ensures r == Ok ==> pending == old(pending)[token := RemoveFirst(old(pending[token]), asset)]
    {
      if token !in pending {
        return Err(InvalidAssetId);
      }
      var assets := pending[token];
      var index := Position(assets, asset);
      if index.None? {
        return Err(InvalidTokenId);
      }
      FirstIndexUnique(assets, asset, index.value);
      pending := pending[token := assets[..index.value] + assets[index.value + 1..]];
      r := Ok;
    }

    /** `remove_from_accepted_assets`. */
    method RemoveFromAcceptedAssets(token: Id, asset: AssetId) returns (r: Outcome)
      modifies this`accepted
      ensures token !in old(accepted) ==> r == Err(InvalidAssetId)
      ensures token in old(accepted) && asset !in old(accepted[token]) ==> r == Err(InvalidTokenId)
      ensures r != Ok ==> accepted == old(accepted)
      ensures r == Ok <==> token in old(accepted) && asset in old(accepted[token])
      ensures r == Ok ==> accepted == old(accepted)[token := RemoveFirst(old(accepted[token]), asset)]
    {
      if token !in accepted {
        return Err(InvalidAssetId);
      }
      var assets := accepted[token];
      var index := Position(assets, asset);
      if index.None? {
        return Err(InvalidTokenId);
      }
      FirstIndexUnique(assets, asset, index.value);
      accepted := accepted[token := assets[..index.value] + assets[index.value + 1..]];
      r := Ok;
    }

    /** `replace_asset`: overwrite `target` in the accepted list with `asset`, in place. */
    method ReplaceAsset(token: Id, asset: AssetId, target: AssetId) returns (r: Outcome)
      modifies this`accepted
      ensures token !in old(accepted) ==> r == Err(AcceptedAssetsMissing)
      ensures token in old(accepted) && target !in old(accepted[token]) ==> r == Err(InvalidAssetId)
      ensures r != Ok ==> accepted == old(accepted)
      ensures r == Ok <==> token in old(accepted) && target in old(accepted[token])
      ensures r == Ok ==> accepted == old(accepted)[token := ReplaceFirst(old(accepted[token]), target, asset)]
    {
      if token !in accepted {
        return Err(AcceptedAssetsMissing);
      }
      var list := accepted[token];
      var index := Position(list, target);
      if index.None? {
        return Err(InvalidAssetId);
      }
      FirstIndexUnique(list, target, index.value);
      accepted := accepted[token := list[index.value := asset]];
      r := Ok;
    }

    /** The checks of `add_asset_to_token`, in the order the source makes them. */
    function AttachGuard(token: Id, asset: AssetId): (r: Outcome)
      reads this
      ensures asset !in entries ==> r == Err(AssetIdNotFound)
      ensures asset in entries && token !in owners ==> r == Err(TokenNotExists)
      ensures asset in entries && token in owners && asset in ListOf(accepted, token) ==> r == Err(AlreadyAddedAsset)
      ensures asset in entries && token in owners && asset !in ListOf(accepted, token) && asset in ListOf(pending, token)
              ==> r == Err(AddingPendingAsset)
      ensures r == Ok <==> asset in entries && token in owners && asset !in ListOf(accepted, token) && asset !in ListOf(pending, token)
    {
      if asset !in entries then Err(AssetIdNotFound)
      else if token !in owners then Err(TokenNotExists)
      else if EnsureNotAccepted(accepted, token, asset) != Ok then EnsureNotAccepted(accepted, token, asset)
      else EnsureNotPending(pending, token, asset)
    }

    /** `add_asset_to_token`. Without a replace target the asset is accepted
        when the caller owns the token and pending otherwise; with one, it
        takes the target's place in the accepted list, whoever the caller. */
    method AddAssetToToken(caller: Account, token: Id, asset: AssetId, toReplace: Option<AssetId>) returns (r: Outcome)
      modifies this`accepted, this`pending
      ensures old(AttachGuard(token, asset)) != Ok ==> r == old(AttachGuard(token, asset))
      ensures r != Ok ==> accepted == old(accepted) && pending == old(pending)
      ensures old(AttachGuard(token, asset)) == Ok && toReplace.Some? ==>
                && (token !in old(accepted) ==> r == Err(AcceptedAssetsMissing))
                && (token in old(accepted) && toReplace.value !in old(accepted[token]) ==> r == Err(InvalidAssetId))
                && (token in old(accepted) && toReplace.value in old(accepted[token]) ==>
                      && r == Ok && pending == old(pending)
                      && accepted == old(accepted)[token := ReplaceFirst(old(accepted[token]), toReplace.value, asset)])
      ensures old(AttachGuard(token, asset)) == Ok && toReplace.None? && caller == owners[token] ==>
                && r == Ok && pending == old(pending)
                && accepted == old(accepted)[token := old(ListOf(accepted, token)) + [asset]]
      ensures old(AttachGuard(token, asset)) == Ok && toReplace.None? && caller != owners[token] ==>
                && r == Ok && accepted == old(accepted)
                && pending == old(pending)[token := old(ListOf(pending, token)) + [asset]]
      ensures old(Valid()) ==> Valid()
    {
      r := AttachGuard(token, asset);
      if r != Ok { return; }
      var owner := owners[token];
      ghost var acc, pend := ListOf(accepted, token), ListOf(pending, token);
      if toReplace.Some? {
        r := ReplaceAsset(token, asset, toReplace.value);
        if r == Ok && old(Valid()) {
          LedgerValidSetAccepted(old(accepted), pending, token, ReplaceFirst(acc, toReplace.value, asset));
        }
      } else if caller == owner {
        AddToAcceptedAssets(token, asset);
        if old(Valid()) {
          LedgerValidSetAccepted(old(accepted), pending, token, acc + [asset]);
        }
      } else {
        AddToPendingAssets(token, asset);
        if old(Valid()) {
          LedgerValidSetPending(accepted, old(pending), token, pend + [asset]);
        }
      }
    }

    /** The checks of `accept_asset` and `reject_asset` (`ensure_pending`,
        the owner lookup, the owner check, and the list lookup in
        `remove_from_pending_assets`), in order. */
    function PendingActionGuard(caller: Account, token: Id, asset: AssetId): (r: Outcome)
      reads this
      ensures token in pending && asset !in pending[token] ==> r == Err(AssetIdNotFound)
      ensures EnsurePending(pending, token, asset) == Ok && token !in owners ==> r == Err(TokenNotExists)
      ensures EnsurePending(pending, token, asset) == Ok && token in owners && caller != owners[token] ==> r == Err(NotTokenOwner)
      ensures token !in pending && token in owners && caller == owners[token] ==> r == Err(InvalidAssetId)
      ensures r == Ok <==> token in pending && asset in pending[token] && token in owners && caller == owners[token]
    {
      if EnsurePending(pending, token, asset) != Ok then EnsurePending(pending, token, asset)
      else if token !in owners then Err(TokenNotExists)
      else if EnsureTokenOwner(owners[token], caller) != Ok then EnsureTokenOwner(owners[token], caller)
      else if token !in pending then Err(InvalidAssetId)
      else Ok
    }

    /** `accept_asset`: the owner moves a pending asset to the end of the accepted list. */
    method AcceptAsset(caller: Account, token: Id, asset: AssetId) returns (r: Outcome)
      modifies this`accepted, this`pending
      ensures r == old(PendingActionGuard(caller, token, asset))
      ensures r != Ok ==> accepted == old(accepted) && pending == old(pending)
      ensures r == Ok ==> && pending == old(pending)[token := RemoveFirst(old(pending[token]), asset)]
                          && accepted == old(accepted)[token := AppendIfAbsent(old(ListOf(accepted, token)), asset)]
      ensures r == Ok && old(Valid()) ==> accepted == old(accepted)[token := old(ListOf(accepted, token)) + [asset]]
      ensures r == Ok && old(Valid()) ==>
                |ListOf(accepted, token)| + |ListOf(pending, token)| == old(|ListOf(accepted, token)| + |ListOf(pending, token)|)
      ensures old(Valid()) ==> Valid()
    {
      var guard := PendingActionGuard(caller, token, asset);
      if guard != Ok { return guard; }
      r := RemoveFromPendingAssets(token, asset);
      AddToAcceptedAssets(token, asset);
      if old(Valid()) {
        AcceptKeepsLedgerValid(old(accepted), old(pending), token, asset);
      }
    }

    /** `reject_asset`: the owner drops a pending asset. */
    method RejectAsset(caller: Account, token: Id, asset: AssetId) returns (r: Outcome)
      modifies this`pending
      ensures r == old(PendingActionGuard(caller, token, asset))
      ensures r != Ok ==> pending == old(pending)
      ensures r == Ok ==> pending == old(pending)[token := RemoveFirst(old(pending[token]), asset)]
      ensures old(Valid()) ==> Valid()
    {
      var guard := PendingActionGuard(caller, token, asset);
      if guard != Ok { return guard; }
      r := RemoveFromPendingAssets(token, asset);
      if old(Valid()) {
        RejectKeepsLedgerValid(accepted, old(pending), token, asset);
      }
    }

    /** The checks of `remove_asset`, in order. */
    function AcceptedActionGuard(caller: Account, token: Id, asset: AssetId): (r: Outcome)
      reads this
      ensures token in accepted && asset !in accepted[token] ==> r == Err(AssetIdNotFound)
      ensures EnsureAssetAccepted(accepted, token, asset) == Ok && token !in owners ==> r == Err(TokenNotExists)
      ensures EnsureAssetAccepted(accepted, token, asset) == Ok && token in owners && caller != owners[token] ==> r == Err(NotTokenOwner)
      ensures token !in accepted && token in owners && caller == owners[token] ==> r == Err(InvalidAssetId)
      ensures r == Ok <==> token in accepted && asset in accepted[token] && token in owners && caller == owners[token]
    {
      if EnsureAssetAccepted(accepted, token, asset) != Ok then EnsureAssetAccepted(accepted, token, asset)
      else if token !in owners then Err(TokenNotExists)
      else if EnsureTokenOwner(owners[token], caller) != Ok then EnsureTokenOwner(owners[token], caller)
      else if token !in accepted then Err(InvalidAssetId)
      else Ok
    }

    /** `remove_asset`: the owner drops an accepted asset. */
    method RemoveAsset(caller: Account, token: Id, asset: AssetId) returns (r: Outcome)
      modifies this`accepted
      ensures r == old(AcceptedActionGuard(caller, token, asset))
      ensures r != Ok ==> accepted == old(accepted)
      ensures r == Ok ==> accepted == old(accepted)[token := RemoveFirst(old(accepted[token]), asset)]
      ensures old(Valid()) ==> Valid()
    {
      var guard := AcceptedActionGuard(caller, token, asset);
      if guard != Ok { return guard; }
      r := RemoveFromAcceptedAssets(token, asset);
      if old(Valid()) {
        RemoveKeepsLedgerValid(old(accepted), pending, token, asset);
      }
    }

    /** `set_priority`: the owner overwrites the accepted list. When a list
        exists the input must have its length and hold only accepted ids;
        duplicates are not rejected, and without a list nothing is checked. */
    method SetPriority(caller: Account, token: Id, priorities: seq<AssetId>) returns (r: Outcome)
      modifies this`accepted
      ensures token !in owners ==> r == Err(TokenNotExists)
      ensures token in owners && caller != owners[token] ==> r == Err(NotTokenOwner)
      ensures token in owners && caller == owners[token] && token in old(accepted) ==>
                && (|old(accepted[token])| != |priorities| ==> r == Err(BadPriorityLength))
                && (|old(accepted[token])| == |priorities| && !PrioritiesMatch(old(accepted[token]), priorities) ==> r == Err(AssetIdNotFound))
      ensures r == Ok <==> token in owners && caller == owners[token]
                           && (token in old(accepted) ==> PrioritiesMatch(old(accepted[token]), priorities))
      ensures r != Ok ==> accepted == old(accepted)
      ensures r == Ok ==> accepted == old(accepted)[token := priorities]
      ensures old(Valid()) && token in old(accepted) && NoDup(priorities) ==> Valid()
    {
      var owner := EnsureExistsAndGetOwner(token);
      if owner.Failure? { return Err(owner.error); }
      r := EnsureTokenOwner(owner.value, caller);
      if r != Ok { return; }
      if token in accepted {
        r := CheckPriorities(accepted[token], priorities);
        if r != Ok { return; }
        if old(Valid()) && NoDup(priorities) {
          PrioritiesKeepListsValid(accepted[token], ListOf(pending, token), priorities);
          LedgerValidSetAccepted(accepted, pending, token, priorities);
        }
      }
      accepted := accepted[token := priorities];
    }

    /** `total_token_assets`: (accepted count, pending count). */
    function TotalTokenAssets(token: Id): (r: Result<(nat, nat)>)
      reads this
      ensures r.Success? <==> token in owners
      ensures r.Failure? ==> r.error == TokenNotExists
      ensures r.Success? ==> r.value == (|ListOf(accepted, token)|, |ListOf(pending, token)|)
    {
      if token !in owners then Failure(TokenNotExists)
      else Success((|ListOf(accepted, token)|, |ListOf(pending, token)|))
    }

    /** `get_accepted_token_assets`. */
    function GetAcceptedTokenAssets(token: Id): (r: Result<seq<AssetId>>)
      reads this
      ensures r.Success? <==> token in owners
      ensures r.Failure? ==> r.error == TokenNotExists
      ensures r.Success? ==> r.value == ListOf(accepted, token)
    {
      if token !in owners then Failure(TokenNotExists) else Success(ListOf(accepted, token))
    }

    /** `get_pending_token_assets`. */
    function GetPendingTokenAssets(token: Id): (r: Result<seq<AssetId>>)
      reads this
      ensures r.Success? <==> token in owners
      ensures r.Failure? ==> r.error == TokenNotExists
      ensures r.Success? ==> r.value == ListOf(pending, token)
    {
      if token !in owners then Failure(TokenNotExists) else Success(ListOf(pending, token))
    }

    // ------------------------------------------------------------ pet status

    /** `set_status`: overwrite the snapshot of an existing token. */
    method SetStatus(token: Id, hungry: nat, health: nat, happy: nat) returns (r: Outcome)
      modifies this`status
      ensures r == Ok <==> token in owners
      ensures r != Ok ==> r == Err(TokenNotExists) && status == old(status)
      ensures r == Ok ==> status == old(status)[token := Status(hungry, health, happy)]
    {
      if token !in owners {
        return Err(TokenNotExists);
      }
      status := status[token := Status(hungry, health, happy)];
      r := Ok;
    }

    /** `set_full_status`. */
    method SetFullStatus(token: Id) returns (r: Outcome)
      modifies this`status
      ensures r == Ok <==> token in owners
      ensures r != Ok ==> r == Err(TokenNotExists) && status == old(status)
      ensures r == Ok ==> status == old(status)[token := FullStatus]
    {
      r := SetStatus(token, 0, 100, 100);
    }

    /** `set_death_status`. */
    method SetDeathStatus(token: Id) returns (r: Outcome)
      modifies this`status
      ensures r == Ok <==> token in owners
      ensures r != Ok ==> r == Err(TokenNotExists) && status == old(status)
      ensures r == Ok ==> status == old(status)[token := DeathStatus]
    {
      r := SetStatus(token, 80, 0, 0);
    }

    /** `get_status`: the stored snapshot, if any. */
    function GetStatus(token: Id): (r: Option<Status>)
      reads this
      ensures r.Some? <==> token in status
      ensures r.Some? ==> r.value == status[token]
    {
      if token in status then Some(status[token]) else None
    }

    /** The stored snapshot, all zero when none is stored. */
    function StoredStatus(token: Id): (s: Status)
      reads this
      ensures token in status ==> s == status[token]
      ensures token !in status ==> s == ZeroStatus
    {
      match GetStatus(token)
      case Some(s) => s
      case None => ZeroStatus
    }

    /** `get_last_eaten`: 0 when the pet was never fed. */
    function GetLastEaten(token: Id): (t: nat)
      reads this
      ensures token in lastEaten ==> t == lastEaten[token]
      ensures token !in lastEaten ==> t == 0
    {
      if token in lastEaten then lastEaten[token] else 0
    }

    /** `set_last_eaten`. */
    method SetLastEaten(token: Id, time: nat) returns (r: Outcome)
      modifies this`lastEaten
      ensures r == Ok && lastEaten == old(lastEaten)[token := time]
    {
      lastEaten := lastEaten[token := time];
      r := Ok;
    }

    /** `get_current_status`: all zero for a pet never fed, otherwise the
        snapshot aged by the whole minutes since it last ate. */
    function CurrentStatus(token: Id, now: nat): (s: Status)
      reads this
      requires GetLastEaten(token) <= now
      ensures GetLastEaten(token) == 0 ==> s == ZeroStatus
      ensures GetLastEaten(token) > 0 ==> s == Decayed(StoredStatus(token), GetLastEaten(token), now)
      ensures GetLastEaten(token) == now > 0 ==> s == StoredStatus(token)
    {
      var last := GetLastEaten(token);
      if last == 0 then ZeroStatus else Decayed(StoredStatus(token), last, now)
    }

    /** Hunger of the current status never falls, health and happiness never
        rise, and the condition tier never improves while time passes. */
    lemma CurrentStatusMonotone(token: Id, t1: nat, t2: nat)
      requires GetLastEaten(token) <= t1 <= t2
      ensures CurrentStatus(token, t1).hungry <= CurrentStatus(token, t2).hungry
      ensures CurrentStatus(token, t2).health <= CurrentStatus(token, t1).health
      ensures CurrentStatus(token, t2).happy <= CurrentStatus(token, t1).happy
      ensures GetCondition(token, t2) <= GetCondition(token, t1)
    {
      if GetLastEaten(token) > 0 {
        DecayedMonotone(StoredStatus(token), GetLastEaten(token), t1, t2);
        ConditionNonIncreasing(StoredStatus(token), GetLastEaten(token), t1, t2);
      }
    }

    /** `change_some_status`: store the current status changed by `number`. */
    method ChangeSomeStatus(token: Id, number: nat, now: nat) returns (r: Outcome)
      requires GetLastEaten(token) <= now
      modifies this`status
      ensures r == Ok && status == old(status)[token := ChangedBy(old(CurrentStatus(token, now)), number)]
    {
      var current := CurrentStatus(token, now);
      status := status[token := ChangedBy(current, number)];
      r := Ok;
    }

    /** `add_twenty`. */
    method AddTwenty(token: Id, now: nat) returns (r: Outcome)
      requires GetLastEaten(token) <= now
      modifies this`status
      ensures r == Ok && status == old(status)[token := ChangedBy(old(CurrentStatus(token, now)), 20)]
    {
      r := ChangeSomeStatus(token, 20, now);
    }

    /** `set_lucky_status`. */
    method SetLuckyStatus(token: Id, now: nat) returns (r: Outcome)
      requires GetLastEaten(token) <= now
      modifies this`status
      ensures r == Ok && status == old(status)[token := ChangedBy(old(CurrentStatus(token, now)), 50)]
    {
      r := ChangeSomeStatus(token, 50, now);
    }

    /** `set_normal_uri`, contributors only. */
    method SetNormalUri(caller: Account, uri: string) returns (r: Outcome)
      modifies this`normalUri
      ensures r == OnlyContributor(caller)
      ensures normalUri == if r == Ok then uri else old(normalUri)
    {
      r := OnlyContributor(caller);
      if r == Ok { normalUri := uri; }
    }

    /** `set_good_uri`, contributors only. */
    method SetGoodUri(caller: Account, uri: string) returns (r: Outcome)
      modifies this`goodUri
      ensures r == OnlyContributor(caller)
      ensures goodUri == if r == Ok then uri else old(goodUri)
    {
      r := OnlyContributor(caller);
      if r == Ok { goodUri := uri; }
    }

    /** `set_bad_uri`, contributors only. */
    method SetBadUri(caller: Account, uri: string) returns (r: Outcome)
      modifies this`badUri
      ensures r == OnlyContributor(caller)
      ensures badUri == if r == Ok then uri else old(badUri)
    {
      r := OnlyContributor(caller);
      if r == Ok { badUri := uri; }
    }

    /** `get_total_status`: the total score of the current status. */
    function GetTotalStatus(token: Id, now: nat): (t: nat)
      reads this
      requires GetLastEaten(token) <= now
      ensures GetLastEaten(token) == 0 ==> t == 0
      ensures var s := CurrentStatus(token, now); t >= s.health + s.happy - s.hungry && (t == 0 || t == s.health + s.happy - s.hungry)
    {
      TotalStatus(CurrentStatus(token, now))
    }

    /** `get_condition`: the tier of the current total. */
    function GetCondition(token: Id, now: nat): (c: nat)
      reads this
      requires GetLastEaten(token) <= now
      ensures c <= 2
      ensures c == 0 <==> GetTotalStatus(token, now) < 100
      ensures c == 2 <==> 200 <= GetTotalStatus(token, now)
      ensures GetLastEaten(token) == 0 ==> c == 0
    {
      Condition(GetTotalStatus(token, now))
    }

    /** `get_condition_url`: the bad, normal or good base URI by tier. */
    function GetConditionUrl(token: Id, now: nat): (u: string)
      reads this
      requires GetLastEaten(token) <= now
      ensures GetTotalStatus(token, now) < 100 ==> u == badUri
      ensures 100 <= GetTotalStatus(token, now) < 200 ==> u == normalUri
      ensures 200 <= GetTotalStatus(token, now) ==> u == goodUri
    {
      var c := GetCondition(token, now);
      if c == 0 then badUri else if c == 1 then normalUri else goodUri
    }

    /** `token_uri` of a numeric id: the condition URI followed by the id in decimal. */
    function TokenUri(token: Id, now: nat): (uri: string)
      reads this
      requires !token.Bytes?
      requires GetLastEaten(token) <= now
      ensures var base := GetConditionUrl(token, now);
              && |base| < |uri| && uri[..|base|] == base
              && (forall i :: |base| <= i < |uri| ==> IsDigit(uri[i]))
              && ParseDecimal(uri[|base|..]) == token.n
              && uri[|base|..] == ToDecimal(token.n)
              && (|uri| - |base| > 1 ==> uri[|base|] != '0')
    {
      var base := GetConditionUrl(token, now);
      var digits := ToDecimal(token.n);
      ParseToDecimal(token.n);
      assert (base + digits)[|base|..] == digits;
      base + digits
    }

    /** `get_pseudo_random`: the hash byte of (now, salt) reduced to
        [0, maxValue]; the salt moves on by one. */
    method GetPseudoRandom(maxValue: nat, now: nat) returns (n: nat)
      requires maxValue < 255
      modifies this`salt
      ensures n == ReduceDraw(digest(now, old(salt)), maxValue) && n <= maxValue
      ensures salt == old(salt) + 1
    {
      n := ReduceDraw(digest(now, salt), maxValue);
      salt := salt + 1;
    }

    /** `eat_an_apple`: once the feeding gate is open, costs one apple,
        records the time and draws one of four outcomes for the stored
        status. An error leaves every field as it was. */
    method EatAnApple(token: Id, account: Account, now: nat) returns (r: Outcome)
      requires GetLastEaten(token) <= now
      modifies this`lastEaten, this`apples, this`salt, this`status
      ensures !FiveMinutesHasPassed(old(GetLastEaten(token)), now) ==> r == Err(TimeHasNotPassed)
      ensures FiveMinutesHasPassed(old(GetLastEaten(token)), now) && old(GetYourApple(account)) == 0 ==> r == Err(NotEnoughApple)
      ensures FiveMinutesHasPassed(old(GetLastEaten(token)), now) && old(GetYourApple(account)) > 0 &&
              GoesThroughSetStatus(BranchOf(ReduceDraw(digest(now, old(salt)), DrawMax))) && token !in owners
              ==> r == Err(TokenNotExists)
      ensures r == Ok <==> && FiveMinutesHasPassed(old(GetLastEaten(token)), now)
                           && old(GetYourApple(account)) > 0
                           && (GoesThroughSetStatus(BranchOf(ReduceDraw(digest(now, old(salt)), DrawMax))) ==> token in owners)
      ensures r != Ok ==> lastEaten == old(lastEaten) && apples == old(apples) && salt == old(salt) && status == old(status)
      ensures r == Ok ==> && lastEaten == old(lastEaten)[token := now]
                          && apples == old(apples)[account := old(GetYourApple(account)) - 1]
                          && salt == old(salt) + 1
                          && status == old(status)[token := FeedResult(old(StoredStatus(token)), ReduceDraw(digest(now, old(salt)), DrawMax))]
    {
      var last := GetLastEaten(token);
      if !FiveMinutesHasPassed(last, now) {
        return Err(TimeHasNotPassed);
      }
      // Checks whose failure the host would revert are made before any write.
      if GetYourApple(account) < 1 {
        return Err(NotEnoughApple);
      }
      if GoesThroughSetStatus(BranchOf(ReduceDraw(digest(now, salt), DrawMax))) && token !in owners {
        return Err(TokenNotExists);
      }
      ghost var stored := StoredStatus(token);
      var _ := SetLastEaten(token, now);
      var _ := MinusYourApple(account);
      var draw := GetPseudoRandom(DrawMax, now);
      assert CurrentStatus(token, now) == stored;
      match BranchOf(draw)
      case PlusThirty => r := ChangeSomeStatus(token, 30, now);
      case Full => r := SetFullStatus(token);
      case Lucky => r := SetLuckyStatus(token, now);
      case Death => r := SetDeathStatus(token);
    }

    // --------------------------------------------------------------- economy

    /** `get_your_apple`: 0 for an unknown account. */
    function GetYourApple(account: Account): (n: nat)
      reads this
      ensures account in apples ==> n == apples[account]
      ensures account !in apples ==> n == 0
    {
      if account in apples then apples[account] else 0
    }

    /** `set_your_apple`: a direct overwrite. */
    method SetYourApple(account: Account, count: nat) returns (r: Outcome)
      modifies this`apples
      ensures r == Ok && apples == old(apples)[account := count]
    {
      apples := apples[account := count];
      r := Ok;
    }

    /** `get_your_money`: 0 for an unknown account. */
    function GetYourMoney(account: Account): (n: nat)
      reads this
      ensures account in money ==> n == money[account]
      ensures account !in money ==> n == 0
    {
      if account in money then money[account] else 0
    }

    /** `set_your_money`: a direct overwrite. */
    method SetYourMoney(account: Account, amount: nat) returns (r: Outcome)
      modifies this`money
      ensures r == Ok && money == old(money)[account := amount]
    {
      money := money[account := amount];
      r := Ok;
    }

    /** `minus_your_apple`: one apple less, if there is one. */
    method MinusYourApple(account: Account) returns (r: Outcome)
      modifies this`apples
      ensures r == Ok <==> old(GetYourApple(account)) >= 1
      ensures r != Ok ==> r == Err(NotEnoughApple) && apples == old(apples)
      ensures r == Ok ==> apples == old(apples)[account := old(GetYourApple(account)) - 1]
    {
      var count := GetYourApple(account);
      if count < 1 {
        return Err(NotEnoughApple);
      }
      apples := apples[account := count - 1];
      r := Ok;
    }

    /** `minus_your_money`: debit `amount` if the balance covers it. */
    method MinusYourMoney(account: Account, amount: nat) returns (r: Outcome)
      modifies this`money
      ensures r == Ok <==> amount <= old(GetYourMoney(account))
      ensures r != Ok ==> r == Err(NotEnoughMoney) && money == old(money)
      ensures r == Ok ==> money == old(money)[account := old(GetYourMoney(account)) - amount]
    {
      var balance := GetYourMoney(account);
      if balance < amount {
        return Err(NotEnoughMoney);
      }
      r := SetYourMoney(account, balance - amount);
    }

    /** `plus_your_money`: credit `amount`. */
    method PlusYourMoney(account: Account, amount: nat) returns (r: Outcome)
      modifies this`money
      ensures r == Ok && money == old(money)[account := old(GetYourMoney(account)) + amount]
    {
      r := SetYourMoney(account, GetYourMoney(account) + amount);
    }

    /** `buy_an_apple`: 20 money for one apple. */
    method BuyAnApple(account: Account) returns (r: Outcome)
      modifies this`money, this`apples
      ensures r == Ok <==> ApplePrice <= old(GetYourMoney(account))
      ensures r != Ok ==> r == Err(NotEnoughMoney) && money == old(money) && apples == old(apples)
      ensures r == Ok ==> && money == old(money)[account := old(GetYourMoney(account)) - ApplePrice]
                          && apples == old(apples)[account := old(GetYourApple(account)) + 1]
    {
      r := MinusYourMoney(account, ApplePrice);
      if r != Ok { return; }
      apples := apples[account := GetYourApple(account) + 1];
    }

    /** The stored stake principal, 0 for an unknown account. */
    function StakedPrincipal(account: Account): (n: nat)
      reads this
      ensures account in stakedMoney ==> n == stakedMoney[account]
      ensures account !in stakedMoney ==> n == 0
    {
      if account in stakedMoney then stakedMoney[account] else 0
    }

    /** The time of the last stake, 0 when never staked. */
    function LastStakedAt(account: Account): (t: nat)
      reads this
      ensures account in lastStaked ==> t == lastStaked[account]
      ensures account !in lastStaked ==> t == 0
    {
      if account in lastStaked then lastStaked[account] else 0
    }

    /** `get_your_staked_money`: principal plus accrued interest. */
    function GetYourStakedMoney(account: Account, now: nat): (v: nat)
      reads this
      requires LastStakedAt(account) <= now
      ensures v == StakedValue(StakedPrincipal(account), LastStakedAt(account), now)
      ensures LastStakedAt(account) == 0 || StakedPrincipal(account) == 0 ==> v == 0
      ensures LastStakedAt(account) > 0 ==> StakedPrincipal(account) <= v
      ensures LastStakedAt(account) > 0 && now - LastStakedAt(account) < StakeUnitMs ==> v == StakedPrincipal(account)
    {
      StakedValue(StakedPrincipal(account), LastStakedAt(account), now)
    }

    /** `stake_your_money`: move `amount` from the balance to the stake. The
        new principal is the accrued value plus `amount`, and the clock of
        the stake restarts. */
    method StakeYourMoney(account: Account, amount: nat, now: nat) returns (r: Outcome)
      requires LastStakedAt(account) <= now
      modifies this`money, this`stakedMoney, this`lastStaked
      ensures r == Ok <==> 0 < old(GetYourMoney(account)) && amount <= old(GetYourMoney(account))
      ensures r != Ok ==> && r == Err(NotEnoughMoney)
                          && money == old(money) && stakedMoney == old(stakedMoney) && lastStaked == old(lastStaked)
      ensures r == Ok ==> && money == old(money)[account := old(GetYourMoney(account)) - amount]
                          && stakedMoney == old(stakedMoney)[account := old(GetYourStakedMoney(account, now)) + amount]
                          && lastStaked == old(lastStaked)[account := now]
    {
      var current := GetYourMoney(account);
      var staked := GetYourStakedMoney(account, now);
      if current == 0 || current < amount {
        return Err(NotEnoughMoney);
      }
      money := money[account := current - amount];
      stakedMoney := stakedMoney[account := staked + amount];
      lastStaked := lastStaked[account := now];
      r := Ok;
    }

    /** `withdraw_your_money`: pay out the accrued stake and zero the principal. */
    method WithdrawYourMoney(account: Account, now: nat) returns (r: Outcome)
      requires LastStakedAt(account) <= now
      modifies this`money, this`stakedMoney
      ensures r == Ok <==> old(GetYourStakedMoney(account, now)) > 0
      ensures r != Ok ==> r == Err(NotEnoughMoney) && money == old(money) && stakedMoney == old(stakedMoney)
      ensures r == Ok ==> && stakedMoney == old(stakedMoney)[account := 0]
                          && money == old(money)[account := old(GetYourMoney(account)) + old(GetYourStakedMoney(account, now))]
    {
      var staked := GetYourStakedMoney(account, now);
      var current := GetYourMoney(account);
      if staked == 0 {
        return Err(NotEnoughMoney);
      }
      stakedMoney := stakedMoney[account := 0];
      money := money[account := current + staked];
      r := Ok;
    }

    /** `get_last_bonus`: 0 when never claimed. */
    function GetLastBonus(account: Account): (t: nat)
      reads this
      ensures account in lastBonus ==> t == lastBonus[account]
      ensures account !in lastBonus ==> t == 0
    {
      if account in lastBonus then lastBonus[account] else 0
    }

    /** `set_last_bonus`. */
    method SetLastBonus(account: Account, time: nat) returns (r: Outcome)
      modifies this`lastBonus
      ensures r == Ok && lastBonus == old(lastBonus)[account := time]
    {
      lastBonus := lastBonus[account := time];
      r := Ok;
    }

    /** `daily_bonus`: a self-claim of 100 money once the bonus gate is open. */
    method DailyBonus(caller: Account, account: Account, now: nat) returns (r: Outcome)
      requires GetLastBonus(account) <= now
      modifies this`lastBonus, this`money
      ensures caller != account ==> r == Err(InvalidAccountId)
      ensures caller == account && !FiveMinutesHasPassed(old(GetLastBonus(account)), now) ==> r == Err(TimeHasNotPassed)
      ensures r == Ok <==> caller == account && FiveMinutesHasPassed(old(GetLastBonus(account)), now)
      ensures r != Ok ==> lastBonus == old(lastBonus) && money == old(money)
      ensures r == Ok ==> && lastBonus == old(lastBonus)[account := now]
                          && money == old(money)[account := old(GetYourMoney(account)) + DailyBonusAmount]
    {
      if !IsAccountId(account, caller) {
        return Err(InvalidAccountId);
      }
      if !FiveMinutesHasPassed(GetLastBonus(account), now) {
        return Err(TimeHasNotPassed);
      }
      r := SetLastBonus(account, now);
      r := SetYourMoney(account, GetYourMoney(account) + DailyBonusAmount);
    }

    /** `set_default`: the three base URIs, 10 apples and 500 money. The URI
        setters are contributor-only, so for anyone else nothing is set. */
    method SetDefault(caller: Account, account: Account) returns (r: Outcome)
      modifies this`badUri, this`normalUri, this`goodUri, this`apples, this`money
      ensures r == OnlyContributor(caller)
      ensures r != Ok ==> && badUri == old(badUri) && normalUri == old(normalUri) && goodUri == old(goodUri)
                          && apples == old(apples) && money == old(money)
      ensures r == Ok ==> && badUri == DefaultBadUri && normalUri == DefaultNormalUri && goodUri == DefaultGoodUri
                          && apples == old(apples)[account := DefaultApples]
                          && money == old(money)[account := DefaultMoney]
    {
      r := SetBadUri(caller, DefaultBadUri);
      if r != Ok { return; }
      r := SetNormalUri(caller, DefaultNormalUri);
      r := SetGoodUri(caller, DefaultGoodUri);
      r := SetYourApple(account, DefaultApples);
      r := SetYourMoney(account, DefaultMoney);
    }
  }
}
