/**
 The blended Pwin as a fixpoint on the dependency forest: what repeated calls of the blend settle
 on is one recursive value per pursuit, whatever predecessors-first order the calls come in.
 */
module BlendForest {
  import opened Wrappers
  import opened DependencyGraph
  import opened Ledger
  import opened LedgerInvariant

  predicate Dependent(s: State, p: Id) {
    p in s.pursuits && s.pursuits[p].dependsOn.Some?
  }

  /** Row `i` is the one whose Pwin the blend of its pursuit overwrites. */
  predicate BlendTarget(s: State, i: nat)
    requires i < |s.rows|
  {
    && Dependent(s, s.rows[i].pursuit) && s.rows[i].basePwin.Some?
    && FindCurrent(s.rows, s.rows[i].pursuit, Base) == Some(i)
  }

  /** The Pwin a pursuit should show: its own where nothing blends, else blended with its predecessor's. */
  ghost function ChainPwin(s: State, p: Id): Option<real>
    requires AllGrounded(DepsOf(s))
    decreases Height(DepsOf(s), p)
  {
    match FindCurrent(s.rows, p, Base)
    case None => None
    case Some(i) =>
      if !Dependent(s, p) || s.rows[i].basePwin.None? then s.rows[i].pwin
      else
        var pred := s.pursuits[p].dependsOn.value;
        PredecessorIsLower(DepsOf(s), p);
        var base := s.rows[i].basePwin.value;
        var depWin := CurrentPwin(s.rows, p, DependentWon).GetOr(base);
        Some(BlendValue(base, depWin, FactorFrom(s, pred, ChainPwin(s, pred))))
  }

  function FactorFrom(s: State, pred: Id, live: Option<real>): real {
    var outcome := if pred in s.pursuits then s.pursuits[pred].outcome else None;
    match outcome
    case Some(Won) => 1.0
    case Some(_) => 0.0
    case None => live.GetOr(0.0)
  }

  /** One call for each pursuit listed. */
  function Pass(s: State, order: seq<Id>): State
    decreases |order|
  {
    if order == [] then s
    else
      var last := |order| - 1;
      var before := Pass(s, order[..last]);
      if Dependent(before, order[last]) then ApplyBlend(before, order[last], before.pursuits[order[last]].dependsOn.value)
      else before
  }

  /** Every dependent pursuit is listed, after its predecessor where that is dependent too. */
  ghost predicate PredecessorsFirst(s: State, order: seq<Id>) {
    && (forall p | Dependent(s, p) :: p in order)
    && forall i | 0 <= i < |order| && Dependent(s, order[i]) ::
         var pred := s.pursuits[order[i]].dependsOn.value;
         Dependent(s, pred) ==> pred in order[..i]
  }

  /** Only the Pwin columns of blend targets may differ. */
  ghost predicate Reblended(s: State, after: State) {
    && after.pursuits == s.pursuits && after.clock == s.clock && |after.rows| == |s.rows|
    && forall i | 0 <= i < |s.rows| ::
         && SameButPwin(s.rows[i], after.rows[i])
         && after.rows[i].solePwin == s.rows[i].solePwin
         && (!BlendTarget(s, i) ==> after.rows[i] == s.rows[i])
  }

  lemma ReblendedFinds(s: State, after: State, p: Id, sc: Scenario)
    requires Reblended(s, after)
    ensures FindCurrent(after.rows, p, sc) == FindCurrent(s.rows, p, sc)
    ensures sc == DependentWon ==> CurrentPwin(after.rows, p, sc) == CurrentPwin(s.rows, p, sc)
  {
    assert forall i | 0 <= i < |s.rows| :: SameButPwin(s.rows[i], after.rows[i]);
    SameFound(s.rows, after.rows, p, sc);
    var i := FindCurrent(s.rows, p, sc);
    if sc == DependentWon && i.Some? {
      assert !BlendTarget(s, i.value);
    }
  }

  lemma {:induction false} SameValue(s: State, after: State, p: Id)
    requires AllGrounded(DepsOf(s)) && Reblended(s, after)
    ensures AllGrounded(DepsOf(after)) && ChainPwin(after, p) == ChainPwin(s, p)
    decreases Height(DepsOf(s), p)
  {
    assert DepsOf(after) == DepsOf(s);
    ReblendedFinds(s, after, p, Base);
    ReblendedFinds(s, after, p, DependentWon);
    var i := FindCurrent(s.rows, p, Base);
    if i.Some? {
      assert SameButPwin(s.rows[i.value], after.rows[i.value]);
      if Dependent(s, p) {
        PredecessorIsLower(DepsOf(s), p);
        SameValue(s, after, s.pursuits[p].dependsOn.value);
      } else {
        assert !BlendTarget(s, i.value);
      }
    }
  }

  lemma ReblendedTwice(a: State, b: State, c: State)
    requires Reblended(a, b) && Reblended(b, c)
    ensures Reblended(a, c)
  {
    forall i | 0 <= i < |a.rows|
      ensures SameButPwin(a.rows[i], c.rows[i]) && c.rows[i].solePwin == a.rows[i].solePwin
      ensures !BlendTarget(a, i) ==> c.rows[i] == a.rows[i]
    {
      assert SameButPwin(a.rows[i], b.rows[i]) && SameButPwin(b.rows[i], c.rows[i]);
      ReblendedFinds(a, b, a.rows[i].pursuit, Base);
    }
  }

  lemma BlendReblends(s: State, p: Id)
    requires Dependent(s, p)
    ensures Reblended(s, ApplyBlend(s, p, s.pursuits[p].dependsOn.value))
  {
  }

  lemma {:induction false} PassReblends(s: State, order: seq<Id>)
    ensures Reblended(s, Pass(s, order))
    decreases |order|
  {
    if order != [] {
      var last := |order| - 1;
      var before := Pass(s, order[..last]);
      PassReblends(s, order[..last]);
      if Dependent(before, order[last]) {
        BlendReblends(before, order[last]);
        ReblendedTwice(s, before, Pass(s, order));
      }
    }
  }

  /** The stored Pwin, and for a blended row the stored blend too, is the recursive value. */
  ghost predicate Settled(s: State, p: Id)
    requires AllGrounded(DepsOf(s))
  {
    && CurrentPwin(s.rows, p, Base) == ChainPwin(s, p)
    && forall i | 0 <= i < |s.rows| && s.rows[i].pursuit == p && BlendTarget(s, i) :: s.rows[i].blended == ChainPwin(s, p)
  }

  lemma FreeIsSettled(s: State, p: Id)
    requires AllGrounded(DepsOf(s)) && !Dependent(s, p)
    ensures Settled(s, p)
  {
  }

  /** Blending a pursuit whose predecessor is settled settles it. */
  lemma BlendSettles(s: State, p: Id)
    requires AllGrounded(DepsOf(s)) && Dependent(s, p) && Settled(s, s.pursuits[p].dependsOn.value)
    ensures var after := ApplyBlend(s, p, s.pursuits[p].dependsOn.value);
            Reblended(s, after) && AllGrounded(DepsOf(after)) && Settled(after, p)
  {
    var pred := s.pursuits[p].dependsOn.value;
    var after := ApplyBlend(s, p, pred);
    BlendReblends(s, p);
    SameValue(s, after, p);
    ReblendedFinds(s, after, p, Base);
    assert BlendFactor(s, pred) == FactorFrom(s, pred, ChainPwin(s, pred));
  }

  /** ... and disturbs no other pursuit. */
  lemma BlendDisturbsNone(s: State, p: Id, q: Id)
    requires AllGrounded(DepsOf(s)) && Dependent(s, p) && q != p && Settled(s, q)
    ensures var after := ApplyBlend(s, p, s.pursuits[p].dependsOn.value);
            AllGrounded(DepsOf(after)) && Settled(after, q)
  {
    var after := ApplyBlend(s, p, s.pursuits[p].dependsOn.value);
    BlendReblends(s, p);
    SameValue(s, after, q);
    ReblendedFinds(s, after, q, Base);
    forall i | 0 <= i < |after.rows| && after.rows[i].pursuit == q
      ensures after.rows[i] == s.rows[i]
    {
      assert SameButPwin(s.rows[i], after.rows[i]);
    }
  }

  ghost predicate SettledUpTo(s: State, after: State, done: seq<Id>) {
    && AllGrounded(DepsOf(after)) && Reblended(s, after)
    && forall p | p in done || !Dependent(s, p) :: Settled(after, p)
  }

  lemma SettledOneMore(s: State, before: State, done: seq<Id>, here: Id)
    requires SettledUpTo(s, before, done) && Dependent(s, here)
    requires Dependent(s, s.pursuits[here].dependsOn.value) ==> s.pursuits[here].dependsOn.value in done
    ensures SettledUpTo(s, ApplyBlend(before, here, s.pursuits[here].dependsOn.value), done + [here])
  {
    var after := ApplyBlend(before, here, s.pursuits[here].dependsOn.value);
    BlendSettles(before, here);
    ReblendedTwice(s, before, after);
    forall p | p in done + [here] || !Dependent(s, p)
      ensures Settled(after, p)
    {
      if p != here {
        BlendDisturbsNone(before, here, p);
      }
    }
  }

  lemma {:induction false} PassSettles(s: State, order: seq<Id>, k: nat)
    requires AllGrounded(DepsOf(s)) && PredecessorsFirst(s, order) && k <= |order|
    ensures SettledUpTo(s, Pass(s, order[..k]), order[..k])
    decreases k
  {
    if k == 0 {
      forall p | !Dependent(s, p)
        ensures Settled(s, p)
      {
        FreeIsSettled(s, p);
      }
    } else {
      var here := order[k - 1];
      assert order[..k] == order[..k - 1] + [here];
      assert order[..k][..k - 1] == order[..k - 1];
      PassSettles(s, order, k - 1);
      if Dependent(s, here) {
        SettledOneMore(s, Pass(s, order[..k - 1]), order[..k - 1], here);
      }
    }
  }

  /** One pass in any predecessors-first order leaves every pursuit at its recursive value. */
  lemma OnePassSettlesAll(s: State, order: seq<Id>, p: Id)
    requires AllGrounded(DepsOf(s)) && PredecessorsFirst(s, order)
    ensures var after := Pass(s, order);
            && AllGrounded(DepsOf(after))
            && CurrentPwin(after.rows, p, Base) == ChainPwin(s, p)
            && forall i | 0 <= i < |after.rows| && after.rows[i].pursuit == p && BlendTarget(after, i) ::
                 after.rows[i].pwin == ChainPwin(s, p) && after.rows[i].blended == ChainPwin(s, p)
  {
    assert order[..|order|] == order;
    PassSettles(s, order, |order|);
    var after := Pass(s, order);
    SameValue(s, after, p);
    assert Settled(after, p);
  }

  lemma PassIsDetermined(s: State, order: seq<Id>, i: nat)
    requires AllGrounded(DepsOf(s)) && PredecessorsFirst(s, order) && i < |s.rows|
    ensures Reblended(s, Pass(s, order))
    ensures Pass(s, order).rows[i] ==
            if BlendTarget(s, i)
            then s.rows[i].(pwin := ChainPwin(s, s.rows[i].pursuit), blended := ChainPwin(s, s.rows[i].pursuit))
            else s.rows[i]
  {
    var after := Pass(s, order);
    PassReblends(s, order);
    assert SameButPwin(s.rows[i], after.rows[i]);
    if BlendTarget(s, i) {
      OnePassSettlesAll(s, order, s.rows[i].pursuit);
      ReblendedFinds(s, after, s.rows[i].pursuit, Base);
      assert BlendTarget(after, i);
    }
  }

  /** The order makes no difference. */
  lemma PassIgnoresOrder(s: State, order: seq<Id>, other: seq<Id>)
    requires AllGrounded(DepsOf(s)) && PredecessorsFirst(s, order) && PredecessorsFirst(s, other)
    ensures Pass(s, order) == Pass(s, other)
  {
    PassReblends(s, order);
    PassReblends(s, other);
    forall i | 0 <= i < |s.rows|
      ensures Pass(s, order).rows[i] == Pass(s, other).rows[i]
    {
      PassIsDetermined(s, order, i);
      PassIsDetermined(s, other, i);
    }
    assert Pass(s, order).rows == Pass(s, other).rows;
  }

  /** Once settled, further calls change nothing. */
  lemma SettledIsFixed(s: State, order: seq<Id>, p: Id)
    requires AllGrounded(DepsOf(s)) && PredecessorsFirst(s, order) && Dependent(s, p)
    ensures var after := Pass(s, order);
            ApplyBlend(after, p, s.pursuits[p].dependsOn.value) == after
  {
    var after := Pass(s, order);
    var pred := s.pursuits[p].dependsOn.value;
    PassReblends(s, order);
    assert DepsOf(after) == DepsOf(s);
    OnePassSettlesAll(s, order, p);
    OnePassSettlesAll(s, order, pred);
    SameValue(s, after, p);
    SameValue(s, after, pred);
    assert BlendFactor(after, pred) == FactorFrom(after, pred, ChainPwin(after, pred));
    var i := FindCurrent(after.rows, p, Base);
    if i.Some? && after.rows[i.value].basePwin.Some? {
      assert BlendTarget(after, i.value);
      assert after.rows[i.value := after.rows[i.value].(pwin := ChainPwin(after, p), blended := ChainPwin(after, p))] == after.rows;
    }
  }

  // ----- A predecessors-first order exists -----

  ghost function DependentIds(s: State): set<Id> {
    set p | p in s.pursuits && Dependent(s, p)
  }

  /** Some pursuit of a finite set stands highest above the root of its chain. */
  lemma {:induction false} Highest(s: State, some: set<Id>) returns (p: Id)
    requires AllGrounded(DepsOf(s)) && some != {}
    ensures p in some && forall q | q in some :: Height(DepsOf(s), q) <= Height(DepsOf(s), p)
    decreases |some|
  {
    p :| p in some;
    if some != {p} {
      var rest := some - {p};
      assert some == rest + {p};
      var q := Highest(s, rest);
      if Height(DepsOf(s), p) <= Height(DepsOf(s), q) {
        p := q;
      }
    }
  }

  /** `order` lists exactly `some`, each after its predecessor where that is in `some`. */
  ghost predicate Lists(s: State, order: seq<Id>, some: set<Id>) {
    && (forall p :: p in order <==> p in some)
    && forall i | 0 <= i < |order| && Dependent(s, order[i]) ::
         var pred := s.pursuits[order[i]].dependsOn.value;
         pred in some ==> pred in order[..i]
  }

  lemma {:induction false} OrderFor(s: State, some: set<Id>) returns (order: seq<Id>)
    requires AllGrounded(DepsOf(s)) && some <= DependentIds(s)
    ensures Lists(s, order, some)
    decreases |some|
  {
    if some == {} {
      order := [];
    } else {
      var p := Highest(s, some);
      var rest := OrderFor(s, some - {p});
      order := rest + [p];
      PredecessorIsLower(DepsOf(s), p);
      forall i | 0 <= i < |order| && Dependent(s, order[i])
        ensures s.pursuits[order[i]].dependsOn.value in some ==> s.pursuits[order[i]].dependsOn.value in order[..i]
      {
        PredecessorIsLower(DepsOf(s), order[i]);
        if i < |rest| {
          assert order[..i] == rest[..i] && rest[i] in rest;
        } else {
          assert order[..i] == rest;
        }
      }
    }
  }

  /** On a forest such an order can always be found, so the fixpoint is always reached. */
  lemma OrderExists(s: State) returns (order: seq<Id>)
    requires AllGrounded(DepsOf(s))
    ensures PredecessorsFirst(s, order)
  {
    order := OrderFor(s, DependentIds(s));
  }
}
