/**
 * `IndexSubset`: an immutable set of indices below a fixed capacity. The
 * interning table behind it is not modelled; two subsets are equal exactly
 * when their capacities and memberships are, which is datatype equality here.
 */
module IndexSubsets {

  datatype IndexSubset = IndexSubset(capacity: nat, indices: set<nat>) {

    /** Every member lies below the capacity. */
    ghost predicate Valid() {
      forall i :: i in indices ==> i < capacity
    }

    predicate Contains(i: nat) {
      i in indices
    }

    /** The members in ascending order, as a scan over the bit positions yields them. */
    function GetIndices(): (r: seq<nat>)
      requires Valid()
      ensures StrictlyAscending(r)
      ensures forall i :: i in r <==> i in indices
    {
      IndicesFromFacts(this, 0);
      IndicesFrom(this, 0)
    }
  }

  predicate StrictlyAscending(s: seq<nat>) {
    forall a, b :: 0 <= a < b < |s| ==> s[a] < s[b]
  }

  /** The members of `s` at or above `lo`, ascending. */
  function IndicesFrom(s: IndexSubset, lo: nat): seq<nat>
    requires s.Valid()
    decreases s.capacity - lo
  {
    if lo >= s.capacity then []
    else (if lo in s.indices then [lo] else []) + IndicesFrom(s, lo + 1)
  }

  lemma {:induction false} IndicesFromFacts(s: IndexSubset, lo: nat)
    requires s.Valid()
    ensures StrictlyAscending(IndicesFrom(s, lo))
    ensures forall k :: 0 <= k < |IndicesFrom(s, lo)| ==> lo <= IndicesFrom(s, lo)[k]
    ensures forall i :: i in IndicesFrom(s, lo) <==> i in s.indices && lo <= i
    decreases s.capacity - lo
  {
    if lo < s.capacity {
      IndicesFromFacts(s, lo + 1);
      if lo in s.indices {
        AscendingCons(lo, IndicesFrom(s, lo + 1));
      }
    }
  }

  lemma AscendingCons(x: nat, rest: seq<nat>)
    requires StrictlyAscending(rest)
    requires forall k :: 0 <= k < |rest| ==> x < rest[k]
    ensures StrictlyAscending([x] + rest)
  {
    var l := [x] + rest;
    forall a, b | 0 <= a < b < |l| ensures l[a] < l[b] {
      assert l[b] == rest[b - 1];
      if a > 0 {
        assert l[a] == rest[a - 1];
      }
    }
  }

  /** The members of `s` at or above `lo`, as a set. */
  ghost function MembersFrom(s: IndexSubset, lo: nat): set<nat> {
    set i | i in s.indices && lo <= i
  }

  /** Builds a subset from an unordered list of indices, all below `capacity`. */
  function Get(capacity: nat, list: seq<nat>): (r: IndexSubset)
    requires forall k :: 0 <= k < |list| ==> list[k] < capacity
    ensures r.Valid() && r.capacity == capacity
    ensures forall i :: i in r.indices <==> i in list
  {
    IndexSubset(capacity, set i | i in list)
  }

  /** The ascending listing has one entry per member. */
  lemma {:induction false} IndicesFromLength(s: IndexSubset, lo: nat)
    requires s.Valid()
    ensures |IndicesFrom(s, lo)| == |MembersFrom(s, lo)|
    decreases s.capacity - lo
  {
    if lo >= s.capacity {
      assert MembersFrom(s, lo) == {};
    } else {
      IndicesFromLength(s, lo + 1);
      var rest := IndicesFrom(s, lo + 1);
      var above := MembersFrom(s, lo + 1);
      if lo in s.indices {
        assert IndicesFrom(s, lo) == [lo] + rest;
        assert lo !in above;
        assert MembersFrom(s, lo) == {lo} + above;
      } else {
        assert IndicesFrom(s, lo) == rest;
        assert MembersFrom(s, lo) == above;
      }
    }
  }

  lemma GetIndicesLength(s: IndexSubset)
    requires s.Valid()
    ensures |s.GetIndices()| == |s.indices|
  {
    IndicesFromLength(s, 0);
    assert MembersFrom(s, 0) == s.indices;
  }
}
