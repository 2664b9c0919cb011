# Multi-asset pet game contracts, in Dafny

This project models the game core of an ink! smart-contract collection built on
RMRK multi-assets:

- the **multi-asset extension** of a PSP34 NFT collection
  (`astar_showgame/crates/multiasset/src/lib.rs` and `internal.rs`), made of:
  - a catalog of asset entries, and each token's pending and accepted asset
    lists;
  - a pet status per token that decays lazily with time, plus its three
    condition tiers and condition-dependent token URIs;
  - feeding the pet with apples, whose outcome is drawn pseudo-randomly;
  - an in-game economy of apples and money, with simple-interest staking and
    a daily bonus;
- the small **tamago** example contract (`astar_showgame/examples/tamago/lib.rs`):
  three u32 gauges and a `feed` message that acts at most once per five
  minutes.

## Layout

| file | module | what it holds |
|---|---|---|
| `types.dfy` | `Types` | ids, the error enum, `Outcome`/`Result`/`Option`, `Asset`, `Status` |
| `lists.dfy` | `AssetLists` | the `Vec` operations the ledger uses: position, push-if-absent, remove, overwrite |
| `ledger.dfy` | `Ledger` | the `ensure_*` guards, the per-token list invariant, the `set_priority` check |
| `timegate.dfy` | `TimeGate` | `has_passed` and its two fixed-duration forms |
| `petstatus.dfy` | `PetStatus` | decay, total score, tiers, status changes, feeding outcomes |
| `staking.dfy` | `Staking` | accrued staked value |
| `decimal.dfy` | `Decimal` | decimal rendering of numeric ids and reading the digits back |
| `multiasset.dfy` | `MultiAssetContract` | contract storage as the class `MultiAsset`, one method per message |
| `tamago.dfy` | `Tamago` | the pet as a value (`Fed`) and the storage class `CatalogContract` |

How the model is set up:

- **Storage class.** The storage struct `MultiAssetData` becomes the class
  `MultiAsset`. Each `Mapping` is a `map` field and `collection_asset_ids` is
  a `seq` field. Each message `modifies` only the fields it writes.
- **Values.** The pure parts are module-level functions with lemmas: decay,
  scoring, the list operations and staking interest.
- **Host inputs.** The block timestamp (`now`, in milliseconds) and the caller
  are explicit parameters.
- **Collection state outside the extension.** Two parts of the NFT state are
  fields of the class:
  - the PSP34 owner registry is `owners`;
  - the set of CONTRIBUTOR role holders is `contributors`.
- **Hash.** The first byte of the Keccak-256 hash of (timestamp, salt) is the
  function `digest`, fixed when the storage is created.
- **Errors.** A message returning `Err` is reverted by the host. So every
  method that returns an error leaves its fields as they were, and
  `EatAnApple` makes all of its checks before its first write.

The storage class keeps an invariant `Valid()` that the source relies on but
never states:

- the catalog id list has no repeats;
- the catalog id list and the entry map hold the same ids;
- every entry has a catalog address;
- for every token, neither the pending nor the accepted list repeats an asset;
- no asset is both pending and accepted on the same token.

Every list message except `SetPriority` preserves `Valid()`.
`SetPriority` keeps it only for a duplicate-free input on a token that
already has an accepted list, because the source checks no more than that.
`Ledger.CheckAdmitsDuplicates` shows the gap.

Where the comments or the documentation of the repository disagree with the
code, the model follows the code:

- `five_minutes_has_passed` waits 60 seconds, not five minutes (`internal.rs:247-249`).
  It gates both feeding and the daily bonus. `one_day_has_passed` is 86 400 seconds.
- `set_priority` is described as reordering the accepted assets. The code
  checks only:
  - that the length is the same;
  - that every entry is already accepted.
  A list with repeats passes. When the token has no accepted list, the input
  is stored without any check.
- Status decay happens once per whole minute, not once per day
  (`lib.rs:174-179`).

## Model

| member | source | states |
|---|---|---|
| AssetLists.FirstIndex | astar_showgame/crates/multiasset/src/internal.rs:158-161 | the index found holds the element and no earlier index does |
| AssetLists.FirstIndexUnique | astar_showgame/crates/multiasset/src/internal.rs:158-161 | an index holding the element with none before it is the first index |
| AssetLists.Position | astar_showgame/crates/multiasset/src/internal.rs:158-161 | `iter().position`: `None` exactly when the element is absent, otherwise the first index holding it |
| AssetLists.AppendIfAbsent | astar_showgame/crates/multiasset/src/internal.rs:116-129 | the result holds exactly the old elements plus the new one; the old list is a prefix; an absent element is appended at the end; a present one changes nothing; no repeats are introduced |
| AssetLists.RemoveFirst | astar_showgame/crates/multiasset/src/internal.rs:147-169 | one element shorter; the multiset loses one copy of the element; the prefix is kept and the rest shifts down by one; in a list without repeats the element is gone |
| AssetLists.ReplaceFirst | astar_showgame/crates/multiasset/src/internal.rs:199-222 | same length; the new asset sits at the target's first index and every other position is unchanged; no repeats result when the new asset was absent, and the target is then gone |
| AssetLists.RemoveAfterAppend | astar_showgame/crates/multiasset/src/internal.rs:116-169 | adding an absent asset and then removing it restores the list |
| AssetLists.DistinctSubsetIsPermutation | astar_showgame/crates/multiasset/src/lib.rs:772-795 | a duplicate-free priority list of the accepted length drawn from a duplicate-free accepted list is a permutation of it |
| Ledger.ListOf | astar_showgame/crates/multiasset/src/lib.rs:848-855 | `unwrap_or_default`: the stored list, or the empty list when none is stored |
| Ledger.EnsureNotAccepted | astar_showgame/crates/multiasset/src/internal.rs:76-83 | fails with `AlreadyAddedAsset` exactly when the token's accepted list holds the asset |
| Ledger.EnsureNotPending | astar_showgame/crates/multiasset/src/internal.rs:86-93 | fails with `AddingPendingAsset` exactly when the token's pending list holds the asset |
| Ledger.EnsurePending | astar_showgame/crates/multiasset/src/internal.rs:96-103 | fails with `AssetIdNotFound` exactly when a pending list exists and lacks the asset; passes when there is no list |
| Ledger.EnsureAssetAccepted | astar_showgame/crates/multiasset/src/internal.rs:106-113 | fails with `AssetIdNotFound` exactly when an accepted list exists and lacks the asset; passes when there is no list |
| Ledger.LedgerValidUpdate | astar_showgame/crates/multiasset/src/lib.rs:734-745 | replacing one token's two lists with lists that are valid together keeps the ledger invariant |
| Ledger.LedgerValidSetAccepted | astar_showgame/crates/multiasset/src/lib.rs:760-769 | replacing only one accepted list with one valid beside the pending list keeps the invariant |
| Ledger.LedgerValidSetPending | astar_showgame/crates/multiasset/src/lib.rs:748-757 | replacing only one pending list with one valid beside the accepted list keeps the invariant |
| Ledger.AcceptKeepsListsValid | astar_showgame/crates/multiasset/src/lib.rs:734-745 | accepting a pending asset appends it to the accepted list and keeps that token's lists free of repeats and disjoint |
| Ledger.RejectKeepsListsValid | astar_showgame/crates/multiasset/src/lib.rs:748-757 | dropping a pending asset keeps the token's lists valid |
| Ledger.RemoveKeepsListsValid | astar_showgame/crates/multiasset/src/lib.rs:760-769 | dropping an accepted asset keeps the token's lists valid |
| Ledger.AcceptKeepsLedgerValid | astar_showgame/crates/multiasset/src/lib.rs:734-745 | the whole ledger stays valid after an accept |
| Ledger.RejectKeepsLedgerValid | astar_showgame/crates/multiasset/src/lib.rs:748-757 | the whole ledger stays valid after a reject |
| Ledger.RemoveKeepsLedgerValid | astar_showgame/crates/multiasset/src/lib.rs:760-769 | the whole ledger stays valid after a remove |
| Ledger.CheckPriorities | astar_showgame/crates/multiasset/src/lib.rs:781-790 | passes exactly when the lengths agree and every priority is accepted; `BadPriorityLength` on a length mismatch, otherwise `AssetIdNotFound` |
| Ledger.PermutationMatches | astar_showgame/crates/multiasset/src/lib.rs:781-790 | every reordering of the accepted list passes the check |
| Ledger.CheckAdmitsDuplicates | astar_showgame/crates/multiasset/src/lib.rs:781-790 | the check also lets through a list that repeats an accepted asset |
| Ledger.PrioritiesKeepListsValid | astar_showgame/crates/multiasset/src/lib.rs:772-795 | storing a checked, duplicate-free priority list keeps the token's lists valid |
| TimeGate.HasPassed | astar_showgame/crates/multiasset/src/internal.rs:236-245 | true exactly when the milliseconds elapsed exceed the check duration in seconds times 1000 |
| TimeGate.FiveMinutesHasPassed | astar_showgame/crates/multiasset/src/internal.rs:247-249 | true exactly when more than 60 000 ms have elapsed |
| TimeGate.OneDayHasPassed | astar_showgame/crates/multiasset/src/internal.rs:251-253 | true exactly when more than 86 400 000 ms have elapsed |
| TimeGate.HasPassedMonotone | astar_showgame/crates/multiasset/src/internal.rs:236-245 | once open the gate stays open as time advances; it is closed right after being reset |
| PetStatus.SaturatingSub | astar_showgame/crates/multiasset/src/lib.rs:187-188 | `saturating_sub`: the difference when it is non-negative, otherwise 0; also used for the tamago hunger gauge |
| PetStatus.DecayAmount | astar_showgame/crates/multiasset/src/lib.rs:174-179 | a multiple of 5, five times the number of whole minutes elapsed |
| PetStatus.DecayAmountMonotone | astar_showgame/crates/multiasset/src/lib.rs:174-179 | the decay never decreases as time advances |
| PetStatus.Decayed | astar_showgame/crates/multiasset/src/lib.rs:181-194 | hunger grows by exactly the decay; health and happiness fall by exactly the decay when they can hold it, and are 0 otherwise; within the first minute the snapshot is unchanged |
| PetStatus.DecayedMonotone | astar_showgame/crates/multiasset/src/lib.rs:156-196 | a later reading is never less hungry, healthier or happier |
| PetStatus.TotalStatus | astar_showgame/crates/multiasset/src/lib.rs:302-317 | health + happiness - hunger, clamped at 0 |
| PetStatus.Condition | astar_showgame/crates/multiasset/src/lib.rs:319-333 | tier 0 exactly below 100, tier 2 exactly from 200, tier 1 between |
| PetStatus.ConditionNonIncreasing | astar_showgame/crates/multiasset/src/lib.rs:302-333 | the total and the tier never rise while the pet is not fed |
| PetStatus.ChangedBy | astar_showgame/crates/multiasset/src/lib.rs:232-255 | health and happiness rise by exactly the number; hunger falls by exactly the number when it can, and is 0 otherwise |
| PetStatus.ChangedByRaisesTotal | astar_showgame/crates/multiasset/src/lib.rs:232-255 | a status change never lowers the total |
| PetStatus.BranchOf | astar_showgame/crates/multiasset/src/lib.rs:366-374 | the four outcomes split the draw at 25, 50 and 75, each exactly on its interval |
| PetStatus.FeedResult | astar_showgame/crates/multiasset/src/lib.rs:364-374 | below 25: +30; [25,50): full status (0,100,100); [50,75): +50; from 75: death status (80,0,0) |
| PetStatus.ReduceDraw | astar_showgame/crates/multiasset/src/internal.rs:232 | `byte % (max + 1)`: at most `max`, and a byte already within range is kept |
| Staking.StakedValue | astar_showgame/crates/multiasset/src/lib.rs:493-502 | 0 when never staked or nothing staked, otherwise at least the principal, and exactly it within the first 10 s unit |
| Staking.StakedValueAfterUnits | astar_showgame/crates/multiasset/src/lib.rs:496-501 | after n whole units and part of another, the value is principal + principal·n/100 |
| Staking.StakedValueMonotone | astar_showgame/crates/multiasset/src/lib.rs:477-503 | the accrued value never decreases while the stake is left alone |
| Decimal.ToDecimal | astar_showgame/crates/multiasset/src/lib.rs:381-402 | non-empty, all digits, no leading zero |
| Decimal.ParseToDecimal | astar_showgame/crates/multiasset/src/lib.rs:380-411 | reading the rendered digits back gives the number |
| MultiAssetContract.EnsureTokenOwner | astar_showgame/crates/multiasset/src/lib.rs:751 | passes exactly when the caller is the owner, otherwise `NotTokenOwner` |
| MultiAssetContract.IsAccountId | astar_showgame/crates/multiasset/src/lib.rs:656-663 | true exactly when the caller is the account |
| MultiAssetContract.MultiAsset.constructor | astar_showgame/crates/multiasset/src/lib.rs:52-97 | default storage: everything empty or zero, with `Valid()` holding |
| MultiAssetContract.MultiAsset.OnlyContributor | astar_showgame/crates/multiasset/src/lib.rs:263 | passes exactly for CONTRIBUTOR holders, otherwise `MissingRole` |
| MultiAssetContract.MultiAsset.EnsureExistsAndGetOwner | astar_showgame/crates/multiasset/src/lib.rs:712 | the owner exactly when the token exists, otherwise `TokenNotExists` |
| MultiAssetContract.MultiAsset.IsNftOwner | astar_showgame/crates/multiasset/src/lib.rs:643-654 | `None` (the unwrap traps) exactly for a token without an owner; otherwise true exactly when the caller owns it |
| MultiAssetContract.MultiAsset.EnsureAssetIdIsAvailable | astar_showgame/crates/multiasset/src/lib.rs:822-833 | passes exactly when the asset id is unused, otherwise `AssetIdAlreadyExists` |
| MultiAssetContract.MultiAsset.AddAssetEntry | astar_showgame/crates/multiasset/src/lib.rs:666-695 | `MissingRole`, then `AssetIdAlreadyExists`; on success the entry, id and catalog address are recorded and the total grows by one; `Valid()` is kept |
| MultiAssetContract.MultiAsset.TotalAssets | astar_showgame/crates/multiasset/src/lib.rs:798-800 | the number of registered ids; under the invariant every entry is among them |
| MultiAssetContract.MultiAsset.GetAsset | astar_showgame/crates/multiasset/src/lib.rs:841-845 | the entry exactly when it is registered |
| MultiAssetContract.MultiAsset.GetAssetUri | astar_showgame/crates/multiasset/src/lib.rs:836-838 | the entry's URI exactly when it is registered |
| MultiAssetContract.MultiAsset.GetAssetCatalogAddress | astar_showgame/crates/multiasset/src/lib.rs:868-873 | the stored catalog address, `None` for an unknown asset |
| MultiAssetContract.MultiAsset.AddToAcceptedAssets | astar_showgame/crates/multiasset/src/internal.rs:116-129 | the token's accepted list becomes the old list with the asset added if absent; nothing else changes |
| MultiAssetContract.MultiAsset.AddToPendingAssets | astar_showgame/crates/multiasset/src/internal.rs:132-144 | the same for the pending list |
| MultiAssetContract.MultiAsset.RemoveFromPendingAssets | astar_showgame/crates/multiasset/src/internal.rs:147-169 | `InvalidAssetId` without a list, `InvalidTokenId` when the asset is absent, otherwise its first occurrence is removed |
| MultiAssetContract.MultiAsset.RemoveFromAcceptedAssets | astar_showgame/crates/multiasset/src/internal.rs:172-194 | the same for the accepted list |
| MultiAssetContract.MultiAsset.ReplaceAsset | astar_showgame/crates/multiasset/src/internal.rs:199-222 | `AcceptedAssetsMissing` without a list, `InvalidAssetId` when the target is absent, otherwise the target's first occurrence is overwritten in place |
| MultiAssetContract.MultiAsset.AttachGuard | astar_showgame/crates/multiasset/src/lib.rs:707-714 | the checks in order: asset registered, token exists, not accepted, not pending; passes exactly when all hold |
| MultiAssetContract.MultiAsset.AddAssetToToken | astar_showgame/crates/multiasset/src/lib.rs:701-731 | guard errors first; with a replace target the asset overwrites it in the accepted list, whoever calls; otherwise the owner's asset is appended to the accepted list and anyone else's to the pending list; `Valid()` is kept |
| MultiAssetContract.MultiAsset.PendingActionGuard | astar_showgame/crates/multiasset/src/lib.rs:734-757 | `AssetIdNotFound`, `TokenNotExists`, `NotTokenOwner`, `InvalidAssetId` in that order; passes exactly when the caller owns the token and the asset is pending |
| MultiAssetContract.MultiAsset.AcceptAsset | astar_showgame/crates/multiasset/src/lib.rs:734-745 | fails with the guard's error and changes nothing; on success the asset leaves the pending list and is appended to the accepted list, the two lengths summing as before; `Valid()` is kept |
| MultiAssetContract.MultiAsset.RejectAsset | astar_showgame/crates/multiasset/src/lib.rs:748-757 | fails with the guard's error; on success the asset leaves the pending list; `Valid()` is kept |
| MultiAssetContract.MultiAsset.AcceptedActionGuard | astar_showgame/crates/multiasset/src/lib.rs:760-769 | the checks of `remove_asset` in order; passes exactly when the caller owns the token and the asset is accepted |
| MultiAssetContract.MultiAsset.RemoveAsset | astar_showgame/crates/multiasset/src/lib.rs:760-769 | fails with the guard's error; on success the asset leaves the accepted list; `Valid()` is kept |
| MultiAssetContract.MultiAsset.SetPriority | astar_showgame/crates/multiasset/src/lib.rs:772-795 | `TokenNotExists`, `NotTokenOwner`, then the list check when an accepted list exists; on success the input becomes the accepted list; `Valid()` is kept for duplicate-free input |
| MultiAssetContract.MultiAsset.TotalTokenAssets | astar_showgame/crates/multiasset/src/lib.rs:803-819 | for an existing token, the accepted and pending counts, 0 for a missing list; otherwise `TokenNotExists` |
| MultiAssetContract.MultiAsset.GetAcceptedTokenAssets | astar_showgame/crates/multiasset/src/lib.rs:848-855 | the accepted list of an existing token, otherwise `TokenNotExists` |
| MultiAssetContract.MultiAsset.GetPendingTokenAssets | astar_showgame/crates/multiasset/src/lib.rs:858-865 | the pending list of an existing token, otherwise `TokenNotExists` |
| MultiAssetContract.MultiAsset.SetStatus | astar_showgame/crates/multiasset/src/lib.rs:120-139 | stores the snapshot exactly when the token exists, otherwise `TokenNotExists` and no change |
| MultiAssetContract.MultiAsset.SetFullStatus | astar_showgame/crates/multiasset/src/lib.rs:141-143 | stores (0, 100, 100) for an existing token |
| MultiAssetContract.MultiAsset.SetDeathStatus | astar_showgame/crates/multiasset/src/lib.rs:145-147 | stores (80, 0, 0) for an existing token |
| MultiAssetContract.MultiAsset.GetStatus | astar_showgame/crates/multiasset/src/lib.rs:150-154 | the stored snapshot exactly when one is stored |
| MultiAssetContract.MultiAsset.StoredStatus | astar_showgame/crates/multiasset/src/lib.rs:181-184 | the stored snapshot, or all zero |
| MultiAssetContract.MultiAsset.GetLastEaten | astar_showgame/crates/multiasset/src/lib.rs:615-620 | the recorded feeding time, 0 when never fed |
| MultiAssetContract.MultiAsset.SetLastEaten | astar_showgame/crates/multiasset/src/lib.rs:622-627 | records the time for the token only |
| MultiAssetContract.MultiAsset.CurrentStatus | astar_showgame/crates/multiasset/src/lib.rs:156-196 | all zero for a pet never fed; otherwise the snapshot aged since feeding; at the feeding instant, the snapshot itself |
| MultiAssetContract.MultiAsset.CurrentStatusMonotone | astar_showgame/crates/multiasset/src/lib.rs:156-196 | as time advances, hunger of the current status never falls, health and happiness never rise, and the tier never improves |
| MultiAssetContract.MultiAsset.ChangeSomeStatus | astar_showgame/crates/multiasset/src/lib.rs:232-255 | stores the current status changed by the number, with no existence check |
| MultiAssetContract.MultiAsset.AddTwenty | astar_showgame/crates/multiasset/src/lib.rs:207-229 | stores the current status changed by 20 |
| MultiAssetContract.MultiAsset.SetLuckyStatus | astar_showgame/crates/multiasset/src/lib.rs:257-259 | stores the current status changed by 50 |
| MultiAssetContract.MultiAsset.SetNormalUri | astar_showgame/crates/multiasset/src/lib.rs:262-268 | contributors only; the URI changes exactly when the role check passes |
| MultiAssetContract.MultiAsset.SetGoodUri | astar_showgame/crates/multiasset/src/lib.rs:275-281 | contributors only; the URI changes exactly when the role check passes |
| MultiAssetContract.MultiAsset.SetBadUri | astar_showgame/crates/multiasset/src/lib.rs:289-295 | contributors only; the URI changes exactly when the role check passes |
| MultiAssetContract.MultiAsset.GetTotalStatus | astar_showgame/crates/multiasset/src/lib.rs:302-317 | the clamped total of the current status; 0 for a pet never fed |
| MultiAssetContract.MultiAsset.GetCondition | astar_showgame/crates/multiasset/src/lib.rs:319-333 | the tier of the current total; 0 for a pet never fed |
| MultiAssetContract.MultiAsset.GetConditionUrl | astar_showgame/crates/multiasset/src/lib.rs:335-344 | the bad, normal or good URI, chosen by the total's band |
| MultiAssetContract.MultiAsset.TokenUri | astar_showgame/crates/multiasset/src/lib.rs:380-411 | the condition URI followed by the canonical decimal rendering of the token number: digits only, no leading zero, reading back as the number |
| MultiAssetContract.MultiAsset.GetPseudoRandom | astar_showgame/crates/multiasset/src/internal.rs:224-234 | the hash byte of (now, salt) reduced to [0, max]; the salt rises by one |
| MultiAssetContract.MultiAsset.EatAnApple | astar_showgame/crates/multiasset/src/lib.rs:346-377 | `TimeHasNotPassed`, then `NotEnoughApple`, then `TokenNotExists` on the two outcomes that go through `set_status`; an error changes nothing; success records the time, spends one apple, advances the salt and stores the drawn outcome |
| MultiAssetContract.MultiAsset.GetYourApple | astar_showgame/crates/multiasset/src/lib.rs:413-418 | the stored apple count, 0 for an unknown account |
| MultiAssetContract.MultiAsset.SetYourApple | astar_showgame/crates/multiasset/src/lib.rs:420-425 | overwrites that account's count only |
| MultiAssetContract.MultiAsset.GetYourMoney | astar_showgame/crates/multiasset/src/lib.rs:428-433 | the stored balance, 0 for an unknown account |
| MultiAssetContract.MultiAsset.SetYourMoney | astar_showgame/crates/multiasset/src/lib.rs:435-440 | overwrites that account's balance only |
| MultiAssetContract.MultiAsset.MinusYourApple | astar_showgame/crates/multiasset/src/lib.rs:543-558 | succeeds exactly with at least one apple, spending one; otherwise `NotEnoughApple` and no change |
| MultiAssetContract.MultiAsset.MinusYourMoney | astar_showgame/crates/multiasset/src/lib.rs:560-572 | succeeds exactly when the balance covers the amount, debiting it; otherwise `NotEnoughMoney` and no change |
| MultiAssetContract.MultiAsset.PlusYourMoney | astar_showgame/crates/multiasset/src/lib.rs:574-582 | credits the amount |
| MultiAssetContract.MultiAsset.BuyAnApple | astar_showgame/crates/multiasset/src/lib.rs:527-541 | succeeds exactly with at least 20 money, trading 20 money for one apple; otherwise no change |
| MultiAssetContract.MultiAsset.StakedPrincipal | astar_showgame/crates/multiasset/src/lib.rs:483-486 | the stored principal, 0 for an unknown account |
| MultiAssetContract.MultiAsset.LastStakedAt | astar_showgame/crates/multiasset/src/lib.rs:489-492 | the time of the last stake, 0 when never staked |
| MultiAssetContract.MultiAsset.GetYourStakedMoney | astar_showgame/crates/multiasset/src/lib.rs:477-503 | equal to `Staking.StakedValue` of the stored principal, stake time and now, so `Staking.StakedValueAfterUnits` gives its closed form; 0 when never staked or nothing staked, otherwise at least the principal, and exactly it within the first unit |
| MultiAssetContract.MultiAsset.StakeYourMoney | astar_showgame/crates/multiasset/src/lib.rs:442-475 | `NotEnoughMoney` for an empty or too small balance; otherwise debits the amount, sets the new principal to the accrued value plus the amount, and restarts the stake clock |
| MultiAssetContract.MultiAsset.WithdrawYourMoney | astar_showgame/crates/multiasset/src/lib.rs:505-525 | `NotEnoughMoney` when nothing has accrued; otherwise the accrued value moves to the balance and the principal becomes 0 |
| MultiAssetContract.MultiAsset.GetLastBonus | astar_showgame/crates/multiasset/src/lib.rs:629-634 | the time of the last bonus, 0 when never claimed |
| MultiAssetContract.MultiAsset.SetLastBonus | astar_showgame/crates/multiasset/src/lib.rs:636-641 | records the time for the account only |
| MultiAssetContract.MultiAsset.DailyBonus | astar_showgame/crates/multiasset/src/lib.rs:585-613 | `InvalidAccountId` for someone else's account, then `TimeHasNotPassed`; on success the time is recorded and 100 money credited |
| MultiAssetContract.MultiAsset.SetDefault | astar_showgame/crates/multiasset/src/lib.rs:112-119 | contributors only; sets the three default URIs, 10 apples and 500 money, or changes nothing |
| Tamago.SaturatingAdd32 | astar_showgame/examples/tamago/lib.rs:69-70 | the sum capped at the largest u32; stays a u32 and never below the first operand |
| Tamago.Fed | astar_showgame/examples/tamago/lib.rs:63-74 | unchanged exactly when less than five minutes have elapsed; otherwise hunger -20, happiness +10 and health +5, all saturating, and the time recorded; gauges stay u32 |
| Tamago.FedMonotone | astar_showgame/examples/tamago/lib.rs:63-74 | feeding never makes the pet hungrier, sadder or less healthy, and never moves the feeding time back |
| Tamago.FedTwiceSameTime | astar_showgame/examples/tamago/lib.rs:63-74 | a second feeding at the same instant changes nothing |
| Tamago.FedAgainAfterFiveMinutes | astar_showgame/examples/tamago/lib.rs:23 | after a feeding, the next one acts exactly when five more minutes have elapsed |
| Tamago.CatalogContract.State | astar_showgame/examples/tamago/lib.rs:28-37 | the gauges and the feeding time as one value |
| Tamago.CatalogContract.constructor | astar_showgame/examples/tamago/lib.rs:26-37 | default storage: all gauges and the feeding time are zero |
| Tamago.CatalogContract.Feed | astar_showgame/examples/tamago/lib.rs:63-74 | the new state is `Fed` of the old state; the gauges stay u32 |
| Tamago.CatalogContract.GetHappiness | astar_showgame/examples/tamago/lib.rs:79-81 | the happiness gauge, a u32 |
| Tamago.CatalogContract.GetLastFed | astar_showgame/examples/tamago/lib.rs:83-85 | the recorded feeding time |

## Left out

- Keccak-256 is not modelled: `get_pseudo_random` takes its first output byte from the constructor's `digest` function of (timestamp, salt).
- The block timestamp and the caller are parameters. Each message that subtracts a stored time from `now` requires the stored time not to exceed `now`. A u64 underflow panic is therefore outside the model.
- The ownership and role internals are not part of this model:
  - `ensure_exists_and_get_owner`, `ensure_token_owner` and the `only_role` modifier come from the `rmrk_common` utilities and the PSP34 and access-control libraries;
  - they are modelled as lookups in `owners` and `contributors`;
  - PSP34 events, role administration, minting and transfers are left out.
- Events (`_emit_*`) and `debug_println!` produce no state and are left out.
- `test_call_psp22` is a cross-contract call into a PSP22 contract whose code is not part of this model. It is left out.
- MultiAssetContract.MultiAsset.TokenUri: does not model the panic of `String::from_utf8(base_uri).unwrap()` (lib.rs:407) on a base URI that is not valid UTF-8, which reverts the call; the model's URIs are character strings, so that path has no counterpart.
- MultiAssetContract.MultiAsset.TokenUri: covers numeric ids only. A `Bytes` id is rendered as UTF-8 text with a panic on invalid bytes, and the model has no UTF-8 decoding.
- MultiAssetContract.MultiAsset.EatAnApple: the source writes the feeding time and spends the apple before it checks the token. The model checks first, which gives the same state once the host reverts the failed message.
- Fixed-width arithmetic is unbounded in the multi-asset model:
  - u16 apple counts and u32 status gauges are not wrapped;
  - u64 money and u128 token ids are not wrapped;
  - the i32 total in `get_total_status` is not cast;
  - an overflow that would panic is outside the model.
  The tamago contract models its u32 saturation explicitly.
- Tamago.CatalogContract.constructor: does not model the access-control setup, the catalog metadata or the unused `last_played` field. The catalog storage the tamago example embeds is not part of this model.
- The URI getters `get_normal_uri`, `get_good_uri` and `get_bad_uri` are plain reads of the fields `normalUri`, `goodUri` and `badUri`. They have no separate member.
- MultiAssetContract.MultiAsset.SetPriority: keeps `Valid()` only for duplicate-free input on a token that has an accepted list, because the source checks no more than that (see `Ledger.CheckAdmitsDuplicates`).
