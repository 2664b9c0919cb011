/** The per-token pending / accepted asset lists: the read-only guards of
    the multi-asset state machine, the ledger invariant, and the input check
    of `set_priority`. */
module Ledger {
  import opened Types
  import opened AssetLists

  /** `Mapping<Id, Vec<AssetId>>`. */
  type Lists = map<Id, seq<AssetId>>

  /** The stored list, or the empty list when the token has none (`unwrap_or_default`). */
  function ListOf(m: Lists, token: Id): (s: seq<AssetId>)
    ensures token in m ==> s == m[token]
    ensures token !in m ==> s == []
  {
    if token in m then m[token] else []
  }

  /** `ensure_not_accepted`: fails exactly when the token's accepted list holds the asset. */
  function EnsureNotAccepted(accepted: Lists, token: Id, asset: AssetId): (r: Outcome)
    ensures r == Ok || r == Err(AlreadyAddedAsset)
    ensures r.Err? <==> asset in ListOf(accepted, token)
  {
    if token in accepted && asset in accepted[token] then Err(AlreadyAddedAsset) else Ok
  }

  /** `ensure_not_pending`: fails exactly when the token's pending list holds the asset. */
  function EnsureNotPending(pending: Lists, token: Id, asset: AssetId): (r: Outcome)
    ensures r == Ok || r == Err(AddingPendingAsset)
    ensures r.Err? <==> asset in ListOf(pending, token)
  {
    if token in pending && asset in pending[token] then Err(AddingPendingAsset) else Ok
  }

  /** `ensure_pending`: fails only when a pending list exists and lacks the
      asset; a token without any pending list passes. */
  function EnsurePending(pending: Lists, token: Id, asset: AssetId): (r: Outcome)
    ensures r == Ok || r == Err(AssetIdNotFound)
    ensures r.Err? <==> token in pending && asset !in pending[token]
    ensures token !in pending ==> r == Ok
  {
    if token in pending && asset !in pending[token] then Err(AssetIdNotFound) else Ok
  }

  /** `ensure_asset_accepted`: fails only when an accepted list exists and
      lacks the asset; a token without any accepted list passes. */
  function EnsureAssetAccepted(accepted: Lists, token: Id, asset: AssetId): (r: Outcome)
    ensures r == Ok || r == Err(AssetIdNotFound)
    ensures r.Err? <==> token in accepted && asset !in accepted[token]
    ensures token !in accepted ==> r == Ok
  {
    if token in accepted && asset !in accepted[token] then Err(AssetIdNotFound) else Ok
  }

  /** The two lists of one token: neither repeats an asset, and no asset is
      both pending and accepted. */
  ghost predicate TokenListsValid(acc: seq<AssetId>, pend: seq<AssetId>) {
    && NoDup(acc)
    && NoDup(pend)
    && forall a :: a in acc ==> a !in pend
  }

  /** The ledger invariant, for every token. */
  ghost predicate LedgerValid(accepted: Lists, pending: Lists) {
    forall t :: TokenListsValid(ListOf(accepted, t), ListOf(pending, t))
  }

  /** Changing the lists of one token keeps the invariant when that token's
      new lists keep it. */
  lemma LedgerValidUpdate(accepted: Lists, pending: Lists, token: Id, acc: seq<AssetId>, pend: seq<AssetId>)
    requires LedgerValid(accepted, pending)
    requires TokenListsValid(acc, pend)
    ensures LedgerValid(accepted[token := acc], pending[token := pend])
  {
    var accepted', pending' := accepted[token := acc], pending[token := pend];
    forall t ensures TokenListsValid(ListOf(accepted', t), ListOf(pending', t)) {
      if t != token {
        assert TokenListsValid(ListOf(accepted, t), ListOf(pending, t));
      }
    }
  }

  /** Changing only a token's accepted list keeps the invariant when it
      stays valid beside the token's pending list. */
  lemma LedgerValidSetAccepted(accepted: Lists, pending: Lists, token: Id, acc: seq<AssetId>)
    requires LedgerValid(accepted, pending)
    requires TokenListsValid(acc, ListOf(pending, token))
    ensures LedgerValid(accepted[token := acc], pending)
  {
    var accepted' := accepted[token := acc];
    forall t ensures TokenListsValid(ListOf(accepted', t), ListOf(pending, t)) {
      if t != token {
        assert TokenListsValid(ListOf(accepted, t), ListOf(pending, t));
      }
    }
  }

  /** Changing only a token's pending list keeps the invariant when it
      stays valid beside the token's accepted list. */
  lemma LedgerValidSetPending(accepted: Lists, pending: Lists, token: Id, pend: seq<AssetId>)
    requires LedgerValid(accepted, pending)
    requires TokenListsValid(ListOf(accepted, token), pend)
    ensures LedgerValid(accepted, pending[token := pend])
  {
    var pending' := pending[token := pend];
    forall t ensures TokenListsValid(ListOf(accepted, t), ListOf(pending', t)) {
      if t != token {
        assert TokenListsValid(ListOf(accepted, t), ListOf(pending, t));
      }
    }
  }

  /** Moving a pending asset to the accepted list keeps the token's lists
      valid, and the asset lands at the end of the accepted list. */
  lemma AcceptKeepsListsValid(acc: seq<AssetId>, pend: seq<AssetId>, asset: AssetId)
    requires TokenListsValid(acc, pend) && asset in pend
    ensures AppendIfAbsent(acc, asset) == acc + [asset]
    ensures TokenListsValid(AppendIfAbsent(acc, asset), RemoveFirst(pend, asset))
  {
    var pend' := RemoveFirst(pend, asset);
    forall a | a in acc + [asset] ensures a !in pend' {
      if a in acc {
        assert a !in multiset(pend);
      }
    }
  }

  /** Dropping a pending asset keeps the token's lists valid. */
  lemma RejectKeepsListsValid(acc: seq<AssetId>, pend: seq<AssetId>, asset: AssetId)
    requires TokenListsValid(acc, pend) && asset in pend
    ensures TokenListsValid(acc, RemoveFirst(pend, asset))
  {
    var pend' := RemoveFirst(pend, asset);
    forall a | a in acc ensures a !in pend' {
      assert a !in multiset(pend);
    }
  }

  /** Dropping an accepted asset keeps the token's lists valid. */
  lemma RemoveKeepsListsValid(acc: seq<AssetId>, pend: seq<AssetId>, asset: AssetId)
    requires TokenListsValid(acc, pend) && asset in acc
    ensures TokenListsValid(RemoveFirst(acc, asset), pend)
  {
    var acc' := RemoveFirst(acc, asset);
    forall a | a in acc' ensures a !in pend {
      assert a in multiset(acc);
    }
  }

  /** `accept_asset` on the whole ledger keeps it valid. */
  lemma AcceptKeepsLedgerValid(accepted: Lists, pending: Lists, token: Id, asset: AssetId)
    requires LedgerValid(accepted, pending) && token in pending && asset in pending[token]
    ensures LedgerValid(accepted[token := ListOf(accepted, token) + [asset]],
                        pending[token := RemoveFirst(pending[token], asset)])
  {
    assert TokenListsValid(ListOf(accepted, token), ListOf(pending, token));
    AcceptKeepsListsValid(ListOf(accepted, token), pending[token], asset);
    LedgerValidUpdate(accepted, pending, token, ListOf(accepted, token) + [asset], RemoveFirst(pending[token], asset));
  }

  /** `reject_asset` on the whole ledger keeps it valid. */
  lemma RejectKeepsLedgerValid(accepted: Lists, pending: Lists, token: Id, asset: AssetId)
    requires LedgerValid(accepted, pending) && token in pending && asset in pending[token]
    ensures LedgerValid(accepted, pending[token := RemoveFirst(pending[token], asset)])
  {
    assert TokenListsValid(ListOf(accepted, token), ListOf(pending, token));
    RejectKeepsListsValid(ListOf(accepted, token), pending[token], asset);
    LedgerValidSetPending(accepted, pending, token, RemoveFirst(pending[token], asset));
  }

  /** `remove_asset` on the whole ledger keeps it valid. */
  lemma RemoveKeepsLedgerValid(accepted: Lists, pending: Lists, token: Id, asset: AssetId)
    requires LedgerValid(accepted, pending) && token in accepted && asset in accepted[token]
    ensures LedgerValid(accepted[token := RemoveFirst(accepted[token], asset)], pending)
  {
    assert TokenListsValid(ListOf(accepted, token), ListOf(pending, token));
    RemoveKeepsListsValid(accepted[token], ListOf(pending, token), asset);
    LedgerValidSetAccepted(accepted, pending, token, RemoveFirst(accepted[token], asset));
  }

  /** The test `set_priority` applies when an accepted list exists: same
      length, and every priority already accepted. */
  predicate PrioritiesMatch(acc: seq<AssetId>, priorities: seq<AssetId>) {
    |acc| == |priorities| && forall x :: x in priorities ==> x in acc
  }

  /** The length check and the validation loop of `set_priority`. */
  method CheckPriorities(acc: seq<AssetId>, priorities: seq<AssetId>) returns (r: Outcome)
    ensures r == Ok <==> PrioritiesMatch(acc, priorities)
    ensures |acc| != |priorities| ==> r == Err(BadPriorityLength)
    ensures |acc| == |priorities| && r != Ok ==> r == Err(AssetIdNotFound)
  {
    if |acc| != |priorities| {
      return Err(BadPriorityLength);
    }
    var i := 0;
    while i < |priorities|
      invariant 0 <= i <= |priorities|
      invariant forall j :: 0 <= j < i ==> priorities[j] in acc
    {
      if priorities[i] !in acc {
        return Err(AssetIdNotFound);
      }
      i := i + 1;
    }
    return Ok;
  }

  /** Every reordering of the accepted list passes the check, the list itself included. */
  lemma PermutationMatches(acc: seq<AssetId>, priorities: seq<AssetId>)
    requires multiset(priorities) == multiset(acc)
    ensures PrioritiesMatch(acc, priorities)
  {
    assert |priorities| == |multiset(priorities)|;
    forall x | x in priorities ensures x in acc {
      assert x in multiset(priorities);
    }
  }

  /** The check does not reject duplicates: an input repeating an accepted
      asset passes although it is no reordering of the accepted list. */
  lemma CheckAdmitsDuplicates()
    ensures exists acc, priorities :: NoDup(acc) && PrioritiesMatch(acc, priorities) && !NoDup(priorities)
  {
    var acc, priorities := [1, 2], [1, 1];
    assert PrioritiesMatch(acc, priorities);
    assert priorities[0] == priorities[1];
  }

  /** Storing a checked, duplicate-free priority list keeps the token's lists valid. */
  lemma PrioritiesKeepListsValid(acc: seq<AssetId>, pend: seq<AssetId>, priorities: seq<AssetId>)
    requires TokenListsValid(acc, pend) && PrioritiesMatch(acc, priorities) && NoDup(priorities)
    ensures TokenListsValid(priorities, pend)
  {
  }
}
