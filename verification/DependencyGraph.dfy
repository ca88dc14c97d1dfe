/**
 The "depends on" relation: each pursuit has at most one predecessor. The write path refuses a
 target whose predecessor chain, followed for at most MAX_DEPTH pursuits, meets the source.
 */
module DependencyGraph {
  import opened Wrappers
  import opened Sums

  type Id = nat
  type Deps = map<Id, Option<Id>>

  const MAX_DEPTH: nat := 50

  function Predecessor(deps: Deps, p: Id): Option<Id> {
    if p in deps then deps[p] else None
  }

  /** The pursuit `n` predecessors up the chain from `p`. */
  function Walk(deps: Deps, p: Id, n: nat): Option<Id>
    decreases n
  {
    if n == 0 then Some(p)
    else match Predecessor(deps, p)
      case None => None
      case Some(q) => Walk(deps, q, n - 1)
  }

  /** The recursive query of the cycle check, row by row: `depth` counts the rows produced so far. */
  predicate CappedHit(deps: Deps, at: Id, goal: Id, depth: nat, cap: nat)
    decreases cap - depth
  {
    at == goal ||
    (depth < cap && Predecessor(deps, at).Some? &&
     CappedHit(deps, Predecessor(deps, at).value, goal, depth + 1, cap))
  }

  ghost predicate Reaches(deps: Deps, from: Id, goal: Id) {
    exists n: nat :: Walk(deps, from, n) == Some(goal)
  }

  /** The chain from `p` ends. */
  ghost predicate Grounded(deps: Deps, p: Id) {
    exists n: nat :: Walk(deps, p, n) == None
  }

  ghost predicate AllGrounded(deps: Deps) {
    forall p: Id :: Grounded(deps, p)
  }

  ghost predicate Cyclic(deps: Deps) {
    exists p: Id, n: nat :: 0 < n && Walk(deps, p, n) == Some(p)
  }

  /** No chain holds more than `bound` pursuits. */
  ghost predicate ChainsWithin(deps: Deps, bound: nat) {
    forall p: Id :: Walk(deps, p, bound) == None
  }

  lemma {:induction false} WalkSplits(deps: Deps, p: Id, m: nat, n: nat)
    ensures Walk(deps, p, m + n) ==
            match Walk(deps, p, m) case None => None case Some(q) => Walk(deps, q, n)
    decreases m
  {
    if m > 0 && Predecessor(deps, p).Some? {
      WalkSplits(deps, Predecessor(deps, p).value, m - 1, n);
    }
  }

  ghost predicate ReachesWithin(deps: Deps, from: Id, goal: Id, steps: nat) {
    exists n: nat :: n <= steps && Walk(deps, from, n) == Some(goal)
  }

  lemma {:induction false} CappedHitIsWalk(deps: Deps, at: Id, goal: Id, depth: nat, cap: nat)
    requires 1 <= depth <= cap
    ensures CappedHit(deps, at, goal, depth, cap) <==> ReachesWithin(deps, at, goal, cap - depth)
    decreases cap - depth
  {
    if at == goal {
      assert Walk(deps, at, 0) == Some(goal);
    } else if Predecessor(deps, at).Some? && depth < cap {
      var q := Predecessor(deps, at).value;
      CappedHitIsWalk(deps, q, goal, depth + 1, cap);
      if ReachesWithin(deps, q, goal, cap - depth - 1) {
        var n: nat :| n <= cap - depth - 1 && Walk(deps, q, n) == Some(goal);
        assert Walk(deps, at, n + 1) == Some(goal);
      }
      if ReachesWithin(deps, at, goal, cap - depth) {
        var n: nat :| n <= cap - depth && Walk(deps, at, n) == Some(goal);
        assert n > 0 && Walk(deps, q, n - 1) == Some(goal);
      }
    }
  }

  /** While no chain exceeds the cap, the capped query decides reachability exactly. */
  lemma CappedIsExact(deps: Deps, target: Id, source: Id, cap: nat)
    requires ChainsWithin(deps, cap) && cap >= 1
    ensures CappedHit(deps, target, source, 1, cap) <==> Reaches(deps, target, source)
  {
    CappedHitIsWalk(deps, target, source, 1, cap);
    if Reaches(deps, target, source) {
      var n: nat :| Walk(deps, target, n) == Some(source);
      if n >= cap {
        WalkSplits(deps, target, cap, n - cap);
      }
      assert n <= cap - 1;
    }
  }

  lemma ChainsWithinGrounds(deps: Deps, bound: nat)
    requires ChainsWithin(deps, bound)
    ensures AllGrounded(deps)
  {
    forall p: Id
      ensures Grounded(deps, p)
    {
      assert Walk(deps, p, bound) == None;
    }
  }

  /** Every chain ends exactly when nothing reaches itself: only this direction needs no finiteness. */
  lemma GroundedHasNoCycle(deps: Deps)
    requires AllGrounded(deps)
    ensures !Cyclic(deps)
  {
    if p: Id, n: nat :| 0 < n && Walk(deps, p, n) == Some(p) {
      assert Grounded(deps, p);
      var m: nat :| Walk(deps, p, m) == None;
      RoundAndRound(deps, p, n, m);
    }
  }

  lemma {:induction false} RoundAndRound(deps: Deps, p: Id, n: nat, m: nat)
    requires 0 < n && Walk(deps, p, n) == Some(p)
    ensures Walk(deps, p, m).Some?
    decreases m
  {
    if m >= n {
      WalkSplits(deps, p, n, m - n);
      RoundAndRound(deps, p, n, m - n);
    } else {
      WalkSplits(deps, p, m, n - m);
    }
  }

  /** Every predecessor is itself in the table. */
  ghost predicate SelfContained(deps: Deps) {
    forall p | p in deps && deps[p].Some? :: deps[p].value in deps
  }

  ghost predicate OnChain(deps: Deps, p: Id, k: nat, x: Id) {
    exists j: nat :: j <= k && Walk(deps, p, j) == Some(x)
  }

  lemma NoRepeat(deps: Deps, p: Id, j: nat, k: nat)
    requires AllGrounded(deps) && j < k && Walk(deps, p, k).Some?
    ensures Walk(deps, p, j) != Walk(deps, p, k)
  {
    if Walk(deps, p, j) == Walk(deps, p, k) {
      WalkSplits(deps, p, j, k - j);
      assert Walk(deps, Walk(deps, p, j).value, k - j) == Walk(deps, p, j);
    }
    GroundedHasNoCycle(deps);
  }

  /** The pursuits on the first `k` steps of a chain: all different, all in the table. */
  lemma {:induction false} ChainNodes(deps: Deps, p: Id, k: nat) returns (seen: set<Id>)
    requires AllGrounded(deps) && SelfContained(deps) && p in deps && Walk(deps, p, k).Some?
    ensures |seen| == k + 1 && seen <= deps.Keys && Walk(deps, p, k).value in seen
    ensures forall x | x in seen :: OnChain(deps, p, k, x)
    decreases k
  {
    if k == 0 {
      seen := {p};
      assert OnChain(deps, p, k, p) by {
        assert Walk(deps, p, k) == Some(p);
      }
    } else {
      WalkSplits(deps, p, k - 1, 1);
      var before := ChainNodes(deps, p, k - 1);
      var last := Walk(deps, p, k - 1).value;
      var x := Walk(deps, p, k).value;
      assert Walk(deps, last, 1) == Some(x);
      assert Predecessor(deps, last) == Some(x) by {
        if Predecessor(deps, last).Some? {
          assert Walk(deps, Predecessor(deps, last).value, 0) == Predecessor(deps, last);
        }
      }
      if x in before {
        assert OnChain(deps, p, k - 1, x);
        var j: nat :| j <= k - 1 && Walk(deps, p, j) == Some(x);
        NoRepeat(deps, p, j, k);
      }
      seen := before + {x};
      forall y | y in seen
        ensures OnChain(deps, p, k, y)
      {
        if y != x {
          assert OnChain(deps, p, k - 1, y);
        } else {
          assert Walk(deps, p, k) == Some(y);
        }
      }
    }
  }

  /** With no more pursuits than the bound, no chain can exceed it. */
  lemma FewPursuitsWithin(deps: Deps, bound: nat)
    requires AllGrounded(deps) && SelfContained(deps) && |deps.Keys| <= bound && bound >= 1
    ensures ChainsWithin(deps, bound)
  {
    forall p: Id
      ensures Walk(deps, p, bound) == None
    {
      if Walk(deps, p, bound).Some? {
        var seen := ChainNodes(deps, p, bound);
        SubsetSize(seen, deps.Keys);
        assert false;
      }
    }
  }

  /** The length of the chain from `p`, counted in pursuits. */
  ghost function Height(deps: Deps, p: Id): (h: nat)
    requires Grounded(deps, p)
    ensures Walk(deps, p, h) == None && (forall k: nat | k < h :: Walk(deps, p, k).Some?)
  {
    var n: nat :| Walk(deps, p, n) == None;
    LeastEnd(deps, p, n)
  }

  ghost function LeastEnd(deps: Deps, p: Id, n: nat): (h: nat)
    requires Walk(deps, p, n) == None
    ensures Walk(deps, p, h) == None && (forall k: nat | k < h :: Walk(deps, p, k).Some?)
    decreases n
  {
    if n > 0 && Walk(deps, p, n - 1) == None then LeastEnd(deps, p, n - 1)
    else
      EndedBefore(deps, p, n);
      n
  }

  lemma EndedBefore(deps: Deps, p: Id, n: nat)
    requires Walk(deps, p, n) == None && n > 0 && Walk(deps, p, n - 1).Some?
    ensures forall k: nat | k < n :: Walk(deps, p, k).Some?
  {
    forall k: nat | k < n
      ensures Walk(deps, p, k).Some?
    {
      WalkSplits(deps, p, k, n - 1 - k);
    }
  }

  lemma PredecessorIsLower(deps: Deps, p: Id)
    requires Grounded(deps, p) && Predecessor(deps, p).Some?
    ensures Grounded(deps, Predecessor(deps, p).value)
    ensures Height(deps, Predecessor(deps, p).value) + 1 == Height(deps, p)
  {
    var q := Predecessor(deps, p).value;
    var h := Height(deps, p);
    assert h > 0;
    assert Walk(deps, q, h - 1) == None;
    var g := Height(deps, q);
    assert Walk(deps, p, g + 1) == Walk(deps, q, g);
  }

  // ----- Writes to the relation -----

  lemma {:induction false} WalkAvoiding(deps: Deps, changed: Deps, p: Id, from: Id, n: nat)
    requires forall x :: x != p ==> Predecessor(changed, x) == Predecessor(deps, x)
    requires forall k: nat | k < n :: Walk(deps, from, k) != Some(p)
    ensures Walk(changed, from, n) == Walk(deps, from, n)
    decreases n
  {
    if n > 0 {
      assert Walk(deps, from, 0) != Some(p);
      if Predecessor(deps, from).Some? {
        var q := Predecessor(deps, from).value;
        forall k: nat | k < n - 1
          ensures Walk(deps, q, k) != Some(p)
        {
          assert Walk(deps, from, k + 1) == Walk(deps, q, k);
        }
        WalkAvoiding(deps, changed, p, q, n - 1);
      }
    }
  }

  ghost predicate FirstArrives(deps: Deps, from: Id, p: Id, n: nat) {
    Walk(deps, from, n) == Some(p) && forall k: nat | k < n :: Walk(deps, from, k) != Some(p)
  }

  lemma {:induction false} FirstArrival(deps: Deps, from: Id, p: Id, n: nat) returns (m: nat)
    requires Walk(deps, from, n) == Some(p)
    ensures FirstArrives(deps, from, p, m)
    decreases n
  {
    if k: nat :| k < n && Walk(deps, from, k) == Some(p) {
      m := FirstArrival(deps, from, p, k);
    } else {
      m := n;
    }
  }

  lemma ClosesCycle(deps: Deps, p: Id, target: Id, n: nat)
    requires Walk(deps, target, n) == Some(p)
    ensures Cyclic(deps[p := Some(target)])
  {
    var changed := deps[p := Some(target)];
    var m := FirstArrival(deps, target, p, n);
    WalkAvoiding(deps, changed, p, target, m);
    assert Walk(changed, p, m + 1) == Some(p);
  }

  lemma GroundedAfter(deps: Deps, p: Id, target: Id, x: Id)
    requires AllGrounded(deps) && !Reaches(deps, target, p)
    ensures Grounded(deps[p := Some(target)], x)
  {
    var changed := deps[p := Some(target)];
    assert Grounded(deps, target);
    var t: nat :| Walk(deps, target, t) == None;
    WalkAvoiding(deps, changed, p, target, t);
    assert Walk(changed, p, t + 1) == None;
    if n: nat :| Walk(deps, x, n) == Some(p) {
      var m := FirstArrival(deps, x, p, n);
      WalkAvoiding(deps, changed, p, x, m);
      WalkSplits(changed, x, m, t + 1);
      assert Walk(changed, x, m + (t + 1)) == None;
    } else {
      assert Grounded(deps, x);
      var n: nat :| Walk(deps, x, n) == None;
      WalkAvoiding(deps, changed, p, x, n);
    }
  }

  lemma StaysGrounded(deps: Deps, p: Id, target: Id)
    requires AllGrounded(deps) && !Reaches(deps, target, p)
    ensures AllGrounded(deps[p := Some(target)])
  {
    var changed := deps[p := Some(target)];
    forall x: Id
      ensures Grounded(changed, x)
    {
      GroundedAfter(deps, p, target, x);
    }
  }

  /**
   The exact effect of an accepted write: the chains stay finite if and only if the source lies
   nowhere on the target's chain beyond the rows the capped query looked at.
   */
  lemma AcceptedWrite(deps: Deps, p: Id, target: Id, cap: nat)
    requires AllGrounded(deps) && cap >= 1 && !CappedHit(deps, target, p, 1, cap)
    ensures AllGrounded(deps[p := Some(target)]) <==> !(exists n: nat :: n >= cap && Walk(deps, target, n) == Some(p))
  {
    CappedHitIsWalk(deps, target, p, 1, cap);
    if Reaches(deps, target, p) {
      var n: nat :| Walk(deps, target, n) == Some(p);
      assert n >= cap;
      ClosesCycle(deps, p, target, n);
      if AllGrounded(deps[p := Some(target)]) {
        GroundedHasNoCycle(deps[p := Some(target)]);
      }
    } else {
      StaysGrounded(deps, p, target);
    }
  }

  /** Each predecessor is the old one or gone. */
  ghost predicate OnlyRemoves(deps: Deps, changed: Deps) {
    forall p: Id :: Predecessor(changed, p) == None || Predecessor(changed, p) == Predecessor(deps, p)
  }

  lemma {:induction false} RemovalShortens(deps: Deps, changed: Deps, p: Id, n: nat)
    requires OnlyRemoves(deps, changed)
    ensures Walk(changed, p, n) == None || Walk(changed, p, n) == Walk(deps, p, n)
    decreases n
  {
    if n > 0 && Predecessor(changed, p).Some? {
      RemovalShortens(deps, changed, Predecessor(changed, p).value, n - 1);
    }
  }

  lemma RemovalKeepsGrounded(deps: Deps, changed: Deps)
    requires AllGrounded(deps) && OnlyRemoves(deps, changed)
    ensures AllGrounded(changed)
  {
    forall p
      ensures Grounded(changed, p)
    {
      assert Grounded(deps, p);
      var n: nat :| Walk(deps, p, n) == None;
      RemovalShortens(deps, changed, p, n);
    }
  }

  // ----- The cap is tight -----

  /** One straight chain of `last + 1` pursuits: 0 is the root, and each other i depends on i - 1. */
  function Chain(last: nat): Deps {
    map i: nat | i <= last :: Link(i)
  }

  function Link(i: nat): Option<Id> {
    if i == 0 then None else Some(i - 1)
  }

  lemma {:induction false} WalkDown(last: nat, i: nat, n: nat)
    requires i <= last
    ensures Walk(Chain(last), i, n) == if n <= i then Some(i - n) else None
    decreases n
  {
    if n > 0 && i > 0 {
      WalkDown(last, i - 1, n - 1);
    }
  }

  lemma ChainIsWithin(last: nat)
    ensures ChainsWithin(Chain(last), last + 1)
  {
    var bound := last + 1;
    forall p: Id
      ensures Walk(Chain(last), p, bound) == None
    {
      if p <= last {
        WalkDown(last, p, bound);
      }
    }
  }

  /** On a chain one pursuit longer than the cap, pointing the root at the far end passes the check and closes a cycle. */
  lemma CapIsTight(cap: nat)
    requires cap >= 1
    ensures ChainsWithin(Chain(cap), cap + 1) && AllGrounded(Chain(cap))
    ensures !CappedHit(Chain(cap), cap, 0, 1, cap)
    ensures Cyclic(Chain(cap)[0 := Some(cap)])
  {
    ChainIsWithin(cap);
    ChainsWithinGrounds(Chain(cap), cap + 1);
    forall n: nat | n <= cap - 1
      ensures Walk(Chain(cap), cap, n) != Some(0)
    {
      WalkDown(cap, cap, n);
    }
    CappedHitIsWalk(Chain(cap), cap, 0, 1, cap);
    WalkDown(cap, cap, cap);
    ClosesCycle(Chain(cap), 0, cap, cap);
  }
}
