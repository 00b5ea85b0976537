/**
 `Array.prototype.filter` on immutable sequences, with the facts the listing
 filter inherits: it keeps exactly the entries the predicate accepts, in their
 original order, as often as they occur.
 */
module Selection {

  /** `xs.filter(keep)`. */
  function Select<T(==,!new)>(xs: seq<T>, keep: T -> bool): (r: seq<T>)
    ensures |r| <= |xs|
    ensures forall x :: x in r ==> x in xs && keep(x)
    ensures forall x :: x in xs && keep(x) ==> x in r
    ensures forall x :: multiset(r)[x] == if keep(x) then multiset(xs)[x] else 0
  {
    if xs == [] then []
    else
      var rest := Select(xs[1..], keep);
      assert xs == [xs[0]] + xs[1..];
      if keep(xs[0]) then [xs[0]] + rest else rest
  }

  /** The ascending positions, from i on, of the entries the predicate
      accepts. */
  function KeptPositions<T>(xs: seq<T>, keep: T -> bool, i: nat): seq<nat>
    requires i <= |xs|
    decreases |xs| - i
  {
    if i == |xs| then []
    else if keep(xs[i]) then [i] + KeptPositions(xs, keep, i + 1)
    else KeptPositions(xs, keep, i + 1)
  }

  /** `positions` lists ascending indices into xs, and r holds the entries at
      those indices, in that order. */
  ghost predicate SelectsInOrder<T>(r: seq<T>, xs: seq<T>, positions: seq<nat>) {
    && |positions| == |r|
    && (forall k :: 0 <= k < |positions| ==> positions[k] < |xs| && r[k] == xs[positions[k]])
    && Ascending(positions)
  }

  /** The positions listed from i on are exactly the accepted ones at or
      after i. */
  lemma {:induction false} KeptPositionsMembers<T>(xs: seq<T>, keep: T -> bool, i: nat)
    requires i <= |xs|
    ensures forall j :: j in KeptPositions(xs, keep, i) <==> i <= j < |xs| && keep(xs[j])
    decreases |xs| - i
  {
    if i < |xs| {
      KeptPositionsMembers(xs, keep, i + 1);
    }
  }

  ghost predicate Ascending(positions: seq<nat>) {
    forall k, l :: 0 <= k < l < |positions| ==> positions[k] < positions[l]
  }

  lemma AscendingHead(positions: seq<nat>)
    requires |positions| >= 2 && Ascending(positions)
    ensures positions[0] < positions[1]
  {
  }

  lemma PrependAscending(i: nat, later: seq<nat>)
    requires Ascending(later)
    requires forall k :: 0 <= k < |later| ==> i < later[k]
    ensures Ascending([i] + later)
  {
    var positions := [i] + later;
    forall k, l | 0 <= k < l < |positions|
      ensures positions[k] < positions[l]
    {
      assert positions[l] == later[l - 1];
      if k > 0 {
        assert positions[k] == later[k - 1];
      }
    }
  }

  /** Putting an entry in front of a selection, and its position in front of
      later positions, keeps the selection in order. */
  lemma PrependSelects<T>(xs: seq<T>, i: nat, rest: seq<T>, later: seq<nat>)
    requires i < |xs| && SelectsInOrder(rest, xs, later)
    requires forall k :: 0 <= k < |later| ==> i < later[k]
    ensures SelectsInOrder([xs[i]] + rest, xs, [i] + later)
  {
    var r, positions := [xs[i]] + rest, [i] + later;
    forall k | 0 <= k < |positions|
      ensures positions[k] < |xs| && r[k] == xs[positions[k]]
    {
      if k > 0 {
        assert positions[k] == later[k - 1] && r[k] == rest[k - 1];
      }
    }
    PrependAscending(i, later);
  }

  lemma {:induction false} KeptPositionsSelect<T(!new)>(xs: seq<T>, keep: T -> bool, i: nat)
    requires i <= |xs|
    ensures SelectsInOrder(Select(xs[i..], keep), xs, KeptPositions(xs, keep, i))
    decreases |xs| - i
  {
    if i < |xs| {
      KeptPositionsSelect(xs, keep, i + 1);
      KeptPositionsMembers(xs, keep, i + 1);
      var rest, later := Select(xs[i + 1..], keep), KeptPositions(xs, keep, i + 1);
      assert xs[i..][1..] == xs[i + 1..];
      if keep(xs[i]) {
        forall k | 0 <= k < |later|
          ensures i < later[k]
        {
          assert later[k] in later;
        }
        PrependSelects(xs, i, rest, later);
      }
    }
  }

  /** The output is exactly the accepted entries in their original order: it
      is xs read at the ascending list of accepted positions, and a position
      is on that list if and only if its entry is accepted. */
  lemma SelectIsOrderedSelection<T(!new)>(xs: seq<T>, keep: T -> bool)
    ensures SelectsInOrder(Select(xs, keep), xs, KeptPositions(xs, keep, 0))
    ensures forall j :: j in KeptPositions(xs, keep, 0) <==> 0 <= j < |xs| && keep(xs[j])
  {
    KeptPositionsSelect(xs, keep, 0);
    KeptPositionsMembers(xs, keep, 0);
    assert xs[0..] == xs;
  }

  /** Selecting again with the same predicate changes nothing. */
  lemma {:induction false} SelectIdempotent<T(!new)>(xs: seq<T>, keep: T -> bool)
    ensures Select(Select(xs, keep), keep) == Select(xs, keep)
  {
    if xs != [] {
      SelectIdempotent(xs[1..], keep);
    }
  }

  /** Predicates that agree on every entry select the same output. */
  lemma {:induction false} SelectAgrees<T(!new)>(xs: seq<T>, keep: T -> bool, keep': T -> bool)
    requires forall x :: x in xs ==> keep(x) == keep'(x)
    ensures Select(xs, keep) == Select(xs, keep')
  {
    if xs != [] {
      SelectAgrees(xs[1..], keep, keep');
    }
  }

  /** When every entry is accepted, the output is the input. */
  lemma {:induction false} SelectKeepsAll<T(!new)>(xs: seq<T>, keep: T -> bool)
    requires forall x :: x in xs ==> keep(x)
    ensures Select(xs, keep) == xs
  {
    if xs != [] {
      SelectKeepsAll(xs[1..], keep);
    }
  }
}
