/** The list helpers of the per-token asset lists: membership without
    duplicates, first-occurrence search, append-if-absent, remove and
    replace at the first occurrence. */
module AssetLists {
  import opened Types

  /** No element occurs twice. */
  predicate NoDup(s: seq<AssetId>) {
    forall i, j :: 0 <= i < j < |s| ==> s[i] != s[j]
  }

  /** Index of the first occurrence of `x`, what `iter().position(|a| a == x)` finds. */
  function FirstIndex(s: seq<AssetId>, x: AssetId): (i: nat)
    requires x in s
    ensures i < |s| && s[i] == x
    ensures x !in s[..i]
  {
    if s[0] == x then 0
    else
      var j := FirstIndex(s[1..], x);
      assert s[..j + 1] == [s[0]] + s[1..][..j];
      j + 1
  }

  /** An index holding `x` with no earlier `x` is the first index. */
  lemma FirstIndexUnique(s: seq<AssetId>, x: AssetId, i: nat)
    requires i < |s| && s[i] == x && x !in s[..i]
    ensures x in s && FirstIndex(s, x) == i
  {
  }

  /** The search loop behind `iter().position`. */
  method Position(s: seq<AssetId>, x: AssetId) returns (r: Option<nat>)
    ensures r.None? <==> x !in s
    ensures r.Some? ==> r.value < |s| && s[r.value] == x && x !in s[..r.value]
  {
    var i := 0;
    while i < |s|
      invariant 0 <= i <= |s|
      invariant x !in s[..i]
    {
      if s[i] == x {
        return Some(i);
      }
      assert s[..i + 1] == s[..i] + [s[i]];
      i := i + 1;
    }
    assert s[..i] == s;
    return None;
  }

  /** `if !list.contains(x) { list.push(x) }`: the list of
      `add_to_accepted_assets` / `add_to_pending_assets` after the call. */
  function AppendIfAbsent(s: seq<AssetId>, x: AssetId): (r: seq<AssetId>)
    ensures x in r
    ensures forall y :: y in r <==> y in s || y == x
    ensures s <= r && |r| <= |s| + 1
    ensures x !in s ==> |r| == |s| + 1 && r[|s|] == x
    ensures x in s ==> r == s
    ensures NoDup(s) ==> NoDup(r)
  {
    if x in s then s else s + [x]
  }

  /** `Vec::remove(position(x))`: the list without the first occurrence of `x`. */
  function RemoveFirst(s: seq<AssetId>, x: AssetId): (r: seq<AssetId>)
    requires x in s
    ensures |r| == |s| - 1
    ensures multiset(r) == multiset(s) - multiset{x}
    ensures r[..FirstIndex(s, x)] == s[..FirstIndex(s, x)]
    ensures forall k :: FirstIndex(s, x) <= k < |r| ==> r[k] == s[k + 1]
    ensures NoDup(s) ==> NoDup(r) && x !in r
  {
    var i := FirstIndex(s, x);
    RemoveAtShape(s, i, s[..i] + s[i + 1..]);
    RemoveAtCount(s, i);
    if NoDup(s) then RemoveAtNoDup(s, i); s[..i] + s[i + 1..] else s[..i] + s[i + 1..]
  }

  /** Deleting position `i` keeps the prefix before it and shifts the rest down by one. */
  lemma RemoveAtShape(s: seq<AssetId>, i: nat, r: seq<AssetId>)
    requires i < |s| && r == s[..i] + s[i + 1..]
    ensures |r| == |s| - 1
    ensures r[..i] == s[..i]
    ensures forall k :: i <= k < |r| ==> r[k] == s[k + 1]
  {
  }

  /** What deleting position `i` does to the multiset of a list. */
  lemma RemoveAtCount(s: seq<AssetId>, i: nat)
    requires i < |s|
    ensures multiset(s[..i] + s[i + 1..]) == multiset(s) - multiset{s[i]}
  {
    assert s == s[..i] + [s[i]] + s[i + 1..];
  }

  /** Deleting position `i` from a duplicate-free list removes its element for good. */
  lemma RemoveAtNoDup(s: seq<AssetId>, i: nat)
    requires i < |s| && NoDup(s)
    ensures NoDup(s[..i] + s[i + 1..]) && s[i] !in s[..i] + s[i + 1..]
  {
    var r := s[..i] + s[i + 1..];
    assert forall k :: 0 <= k < |r| ==> r[k] == if k < i then s[k] else s[k + 1];
    forall k, l | 0 <= k < l < |r| ensures r[k] != r[l] {
      var k', l' := if k < i then k else k + 1, if l < i then l else l + 1;
      assert r[k] == s[k'] && r[l] == s[l'] && k' < l';
    }
    forall k | 0 <= k < |r| ensures r[k] != s[i] {
      var k' := if k < i then k else k + 1;
      assert r[k] == s[k'] && k' != i;
    }
  }

  /** `list[position(target)] = x`: the first occurrence of `target` overwritten by `x`. */
  function ReplaceFirst(s: seq<AssetId>, target: AssetId, x: AssetId): (r: seq<AssetId>)
    requires target in s
    ensures |r| == |s| && r[FirstIndex(s, target)] == x
    ensures forall k :: 0 <= k < |s| && k != FirstIndex(s, target) ==> r[k] == s[k]
    ensures x in r
    ensures forall y :: y in r ==> y in s || y == x
    ensures NoDup(s) && x !in s ==> NoDup(r) && (target != x ==> target !in r)
  {
    s[FirstIndex(s, target) := x]
  }

  /** Appending an absent element and removing it again gives back the list:
      `accept_asset` followed by `remove_asset` restores the accepted list. */
  lemma {:induction false} RemoveAfterAppend(s: seq<AssetId>, x: AssetId)
    requires x !in s
    ensures RemoveFirst(AppendIfAbsent(s, x), x) == s
  {
    var t := s + [x];
    assert t[|s|] == x && t[..|s|] == s;
    FirstIndexUnique(t, x, |s|);
  }

  /** A duplicate-free list whose elements all occur in a duplicate-free
      list of the same length is a permutation of it. */
  lemma {:induction false} DistinctSubsetIsPermutation(a: seq<AssetId>, p: seq<AssetId>)
    requires NoDup(a) && NoDup(p) && |a| == |p|
    requires forall x :: x in p ==> x in a
    ensures multiset(p) == multiset(a)
  {
    if p != [] {
      var a', p' := RemoveFirst(a, p[0]), p[1..];
      assert p == [p[0]] + p';
      forall x | x in p' ensures x in a' {
        assert x in p && x != p[0];
        assert x in multiset(a);
        assert multiset(a')[x] == multiset(a)[x];
        assert x in multiset(a');
      }
      assert NoDup(p') by {
        forall i, j | 0 <= i < j < |p'| ensures p'[i] != p'[j] {
          assert p'[i] == p[i + 1] && p'[j] == p[j + 1];
        }
      }
      DistinctSubsetIsPermutation(a', p');
    }
  }
}
