/** The organisation tree: scope as a downward closure, the nodes a pursuit may be assigned to, and rollups. */
module OrgTree {
  import opened Wrappers
  import opened Sums

  type Id = nat

  datatype Kind = Business | BusinessUnit | Division

  datatype Node = Node(kind: Kind, parent: Option<Id>, active: bool, boundary: bool, name: string)

  type Tree = map<Id, Node>

  function Depth(kind: Kind): nat {
    match kind
    case Business => 0
    case BusinessUnit => 1
    case Division => 2
  }

  /** What the table's constraints allow: a business has no parent, a unit sits under a business, a division under a unit. */
  ghost predicate WellNested(tree: Tree) {
    forall n | n in tree ::
      match tree[n].parent
      case None => tree[n].kind == Business
      case Some(p) => p in tree && Depth(tree[p].kind) + 1 == Depth(tree[n].kind)
  }

  /** `n` is reached from `root` going down through active nodes. */
  ghost predicate Under(tree: Tree, root: Id, n: Id)
    requires WellNested(tree)
    decreases if n in tree then Depth(tree[n].kind) else 0
  {
    n in tree && tree[n].active &&
    (n == root || (tree[n].parent.Some? && Under(tree, root, tree[n].parent.value)))
  }

  ghost function Subtree(tree: Tree, root: Id): set<Id>
    requires WellNested(tree)
  {
    set n | n in tree && Under(tree, root, n)
  }

  predicate IsChild(tree: Tree, p: Id, c: Id) {
    c in tree && tree[c].active && tree[c].parent == Some(p)
  }

  lemma {:induction false} UnderIsTransitive(tree: Tree, a: Id, b: Id, c: Id)
    requires WellNested(tree) && Under(tree, a, b) && Under(tree, b, c)
    ensures Under(tree, a, c)
    decreases Depth(tree[c].kind)
  {
    if c != b {
      UnderIsTransitive(tree, a, b, tree[c].parent.value);
    }
  }

  lemma {:induction false} UnderIsDeeper(tree: Tree, a: Id, c: Id)
    requires WellNested(tree) && Under(tree, a, c) && a != c
    ensures a in tree && Depth(tree[a].kind) < Depth(tree[c].kind)
    decreases Depth(tree[c].kind)
  {
    if tree[c].parent.value != a {
      UnderIsDeeper(tree, a, tree[c].parent.value);
    }
  }

  // ----- What a user sees -----

  /** Every active node below one of the nodes the user is assigned to. */
  ghost function Visible(tree: Tree, granted: set<Id>): set<Id>
    requires WellNested(tree)
  {
    set n | n in tree && exists r :: r in granted && Under(tree, r, n)
  }

  ghost predicate DownwardClosed(tree: Tree, seen: set<Id>) {
    forall p, c | p in seen && IsChild(tree, p, c) :: c in seen
  }

  lemma VisibleIsClosed(tree: Tree, granted: set<Id>)
    requires WellNested(tree)
    ensures DownwardClosed(tree, Visible(tree, granted))
  {
    var seen := Visible(tree, granted);
    forall p, c | p in seen && IsChild(tree, p, c)
      ensures c in seen
    {
      var r :| r in granted && Under(tree, r, p);
      assert Under(tree, r, c);
    }
  }

  // ----- Assignable nodes -----

  function ActiveIn(tree: Tree, seen: set<Id>): set<Id> {
    set n | n in tree && tree[n].active && n in seen
  }

  predicate HasDivisionChild(tree: Tree, seen: set<Id>, n: Id) {
    exists c :: c in ActiveIn(tree, seen) && tree[c].kind == Division && tree[c].parent == Some(n)
  }

  /** Divisions, and units none of whose divisions are in what this user sees. */
  function Assignable(tree: Tree, seen: set<Id>): set<Id> {
    set n | n in ActiveIn(tree, seen) &&
            (tree[n].kind == Division || (tree[n].kind == BusinessUnit && !HasDivisionChild(tree, seen, n)))
  }

  /** The operating leaves of the whole tree, with no regard to any user. */
  ghost predicate Leaf(tree: Tree, n: Id) {
    && n in tree && tree[n].active && tree[n].kind != Business
    && !exists c :: IsChild(tree, n, c)
  }

  /** A closed scope is enough to know the leaves: nothing hidden from the user could change the answer. */
  lemma AssignableIsLeaves(tree: Tree, seen: set<Id>, n: Id)
    requires WellNested(tree) && DownwardClosed(tree, seen)
    ensures n in Assignable(tree, seen) <==> n in seen && Leaf(tree, n)
  {
    if n in seen && n in tree && tree[n].active {
      if c :| IsChild(tree, n, c) {
        assert c in seen && c in ActiveIn(tree, seen);
        assert Depth(tree[n].kind) + 1 == Depth(tree[c].kind);
      }
      if HasDivisionChild(tree, seen, n) {
        var c :| c in ActiveIn(tree, seen) && tree[c].kind == Division && tree[c].parent == Some(n);
        assert IsChild(tree, n, c);
      }
    }
  }

  /** No assignable node lies below another, so no pursuit is ambiguous between two of them. */
  lemma AssignableIsAntichain(tree: Tree, seen: set<Id>, a: Id, b: Id)
    requires WellNested(tree) && a in Assignable(tree, seen) && b in Assignable(tree, seen) && a != b
    ensures !Under(tree, a, b)
  {
    if Under(tree, a, b) {
      UnderIsDeeper(tree, a, b);
      NextBelow(tree, a, b);
    }
  }

  lemma NextBelow(tree: Tree, a: Id, b: Id)
    requires WellNested(tree) && Under(tree, a, b) && a != b && a in tree && Depth(tree[b].kind) == Depth(tree[a].kind) + 1
    ensures IsChild(tree, a, b)
  {
    var p := tree[b].parent.value;
    if p != a {
      UnderIsDeeper(tree, a, p);
    }
  }

  // ----- Rollups, as the recursive query lists them -----

  ghost predicate Distinct(s: seq<Id>) {
    forall i, j | 0 <= i < j < |s| :: s[i] != s[j]
  }

  /** The table's rows whose parent is `p`, in table order. */
  function ChildrenOf(tree: Tree, table: seq<Id>, p: Id): seq<Id> {
    if table == [] then []
    else
      var rest := ChildrenOf(tree, table[..|table| - 1], p);
      if IsChild(tree, p, table[|table| - 1]) then rest + [table[|table| - 1]] else rest
  }

  /** The join of one round of the recursion: a row for each pair of a frontier row and one of its children. */
  function NextLevel(tree: Tree, table: seq<Id>, frontier: seq<Id>): seq<Id> {
    if frontier == [] then []
    else NextLevel(tree, table, frontier[..|frontier| - 1]) + ChildrenOf(tree, table, frontier[|frontier| - 1])
  }

  /** All rounds from one frontier on; the nesting ends after three. */
  function Expand(tree: Tree, table: seq<Id>, frontier: seq<Id>, rounds: nat): seq<Id>
    decreases rounds
  {
    if rounds == 0 || frontier == [] then []
    else frontier + Expand(tree, table, NextLevel(tree, table, frontier), rounds - 1)
  }

  function Rollup(tree: Tree, table: seq<Id>, root: Id): seq<Id> {
    if root in tree && tree[root].active then Expand(tree, table, [root], 3) else []
  }

  lemma {:induction false} ChildrenListed(tree: Tree, table: seq<Id>, p: Id)
    requires Distinct(table)
    ensures Distinct(ChildrenOf(tree, table, p))
    ensures forall c :: c in ChildrenOf(tree, table, p) <==> c in table && IsChild(tree, p, c)
    decreases |table|
  {
    if table != [] {
      assert table == table[..|table| - 1] + [table[|table| - 1]];
      ChildrenListed(tree, table[..|table| - 1], p);
    }
  }

  lemma DistinctConcat(a: seq<Id>, b: seq<Id>)
    requires Distinct(a) && Distinct(b) && forall x | x in a :: x !in b
    ensures Distinct(a + b)
  {
    forall i, j | 0 <= i < j < |a + b|
      ensures (a + b)[i] != (a + b)[j]
    {
      if i < |a| <= j {
        assert a[i] in a && b[j - |a|] in b;
      }
    }
  }

  lemma {:induction false} LevelListed(tree: Tree, table: seq<Id>, frontier: seq<Id>)
    requires Distinct(table) && Distinct(frontier)
    ensures Distinct(NextLevel(tree, table, frontier))
    ensures forall c :: c in NextLevel(tree, table, frontier) <==>
                        c in table && c in tree && tree[c].active && tree[c].parent.Some? && tree[c].parent.value in frontier
    decreases |frontier|
  {
    if frontier != [] {
      var last := frontier[|frontier| - 1];
      var rest := frontier[..|frontier| - 1];
      assert frontier == rest + [last];
      LevelListed(tree, table, rest);
      ChildrenListed(tree, table, last);
      DistinctConcat(NextLevel(tree, table, rest), ChildrenOf(tree, table, last));
    }
  }

  /** The rows reached from a frontier whose nodes all have depth `d`. */
  ghost predicate BelowFrontier(tree: Tree, frontier: seq<Id>, n: Id)
    requires WellNested(tree)
  {
    exists r :: r in frontier && Under(tree, r, n)
  }

  ghost predicate FrontierAt(tree: Tree, frontier: seq<Id>, d: nat) {
    Distinct(frontier) && forall r | r in frontier :: r in tree && tree[r].active && Depth(tree[r].kind) == d
  }

  lemma {:induction false} Descend(tree: Tree, table: seq<Id>, frontier: seq<Id>, d: nat, n: Id)
    requires WellNested(tree) && FrontierAt(tree, frontier, d) && Distinct(table) && (forall x :: x in table <==> x in tree)
    ensures BelowFrontier(tree, frontier, n) <==>
            n in frontier || BelowFrontier(tree, NextLevel(tree, table, frontier), n)
    ensures n in frontier ==> !BelowFrontier(tree, NextLevel(tree, table, frontier), n)
    decreases if n in tree then Depth(tree[n].kind) else 0
  {
    var next := NextLevel(tree, table, frontier);
    LevelListed(tree, table, frontier);
    if n in frontier {
      assert Under(tree, n, n);
      if r :| r in next && Under(tree, r, n) {
        assert Depth(tree[r].kind) == d + 1;
        if r != n {
          UnderIsDeeper(tree, r, n);
        }
      }
    } else if n in tree && tree[n].active && tree[n].parent.Some? {
      var p := tree[n].parent.value;
      Descend(tree, table, frontier, d, p);
      if BelowFrontier(tree, frontier, n) {
        var r :| r in frontier && Under(tree, r, n);
        assert Under(tree, r, p);
        if p in frontier {
          assert n in next && Under(tree, n, n);
        } else {
          var q :| q in next && Under(tree, q, p);
          assert Under(tree, q, n);
        }
      }
      if BelowFrontier(tree, next, n) {
        var q :| q in next && Under(tree, q, n);
        var r := tree[q].parent.value;
        assert Under(tree, r, q);
        UnderIsTransitive(tree, r, q, n);
      }
    }
  }

  lemma {:induction false} ExpandListed(tree: Tree, table: seq<Id>, frontier: seq<Id>, d: nat)
    requires WellNested(tree) && d <= 3 && FrontierAt(tree, frontier, d)
    requires Distinct(table) && forall x :: x in table <==> x in tree
    ensures Distinct(Expand(tree, table, frontier, 3 - d))
    ensures forall n :: n in Expand(tree, table, frontier, 3 - d) <==> BelowFrontier(tree, frontier, n)
    decreases 3 - d
  {
    if frontier != [] {
      assert frontier[0] in frontier;
      var next := NextLevel(tree, table, frontier);
      LevelListed(tree, table, frontier);
      ExpandListed(tree, table, next, d + 1);
      forall n
        ensures n in Expand(tree, table, frontier, 3 - d) <==> BelowFrontier(tree, frontier, n)
        ensures n in frontier ==> n !in Expand(tree, table, next, 3 - (d + 1))
      {
        Descend(tree, table, frontier, d, n);
      }
      DistinctConcat(frontier, Expand(tree, table, next, 3 - (d + 1)));
    }
  }

  ghost predicate Enumerates(table: seq<Id>, tree: Tree) {
    Distinct(table) && forall x :: x in table <==> x in tree
  }

  /** The query's rows are the subtree, each node once. */
  lemma RollupIsSubtree(tree: Tree, table: seq<Id>, root: Id)
    requires WellNested(tree) && Enumerates(table, tree)
    ensures Distinct(Rollup(tree, table, root))
    ensures forall n :: n in Rollup(tree, table, root) <==> n in Subtree(tree, root)
  {
    if root in tree && tree[root].active {
      var d := Depth(tree[root].kind);
      ExpandListed(tree, table, [root], d);
      RoundsEnough(tree, table, [root], d, 3);
      forall n
        ensures n in Rollup(tree, table, root) <==> n in Subtree(tree, root)
      {
        assert BelowFrontier(tree, [root], n) <==> Under(tree, root, n);
      }
    } else {
      forall n
        ensures !Under(tree, root, n)
      {
        NotUnderInactive(tree, root, n);
      }
    }
  }

  lemma {:induction false} NotUnderInactive(tree: Tree, root: Id, n: Id)
    requires WellNested(tree) && (root !in tree || !tree[root].active)
    ensures !Under(tree, root, n)
    decreases if n in tree then Depth(tree[n].kind) else 0
  {
    if n in tree && n != root && tree[n].parent.Some? {
      NotUnderInactive(tree, root, tree[n].parent.value);
    }
  }

  /** No round past the deepest level adds a row. */
  lemma {:induction false} RoundsEnough(tree: Tree, table: seq<Id>, frontier: seq<Id>, d: nat, rounds: nat)
    requires WellNested(tree) && d <= 3 && FrontierAt(tree, frontier, d) && Enumerates(table, tree) && rounds >= 3 - d
    ensures Expand(tree, table, frontier, rounds) == Expand(tree, table, frontier, 3 - d)
    decreases 3 - d
  {
    if frontier != [] {
      assert frontier[0] in frontier;
      var next := NextLevel(tree, table, frontier);
      LevelListed(tree, table, frontier);
      RoundsEnough(tree, table, next, d + 1, rounds - 1);
    }
  }

  /** The nodes a dashboard selection may resolve to: the subtrees of all assigned nodes, each node once. */
  method CandidateNodes(tree: Tree, table: seq<Id>, roots: seq<Id>) returns (seen: set<Id>)
    requires WellNested(tree) && Enumerates(table, tree)
    ensures seen == Visible(tree, set r | r in roots)
  {
    seen := {};
    for i := 0 to |roots|
      invariant forall n :: n in seen <==> BelowFrontier(tree, roots[..i], n)
    {
      hide Rollup, BelowFrontier, Under;
      var rows := Rollup(tree, table, roots[i]);
      RollupIsSubtree(tree, table, roots[i]);
      seen := AddRows(seen, rows);
      assert roots[..i + 1] == roots[..i] + [roots[i]];
      forall n
        ensures n in seen <==> BelowFrontier(tree, roots[..i + 1], n)
      {
        BelowOneMore(tree, roots[..i], roots[i], n);
        UnderIsListed(tree, table, roots[i], n);
      }
    }
    assert roots[..|roots|] == roots;
  }

  method AddRows(before: set<Id>, rows: seq<Id>) returns (seen: set<Id>)
    ensures forall n :: n in seen <==> n in before || n in rows
  {
    seen := before;
    for j := 0 to |rows|
      invariant forall n :: n in seen <==> n in before || n in rows[..j]
    {
      assert rows[..j + 1] == rows[..j] + [rows[j]];
      seen := seen + {rows[j]};
    }
    assert rows[..|rows|] == rows;
  }

  lemma UnderIsListed(tree: Tree, table: seq<Id>, root: Id, n: Id)
    requires WellNested(tree) && Enumerates(table, tree)
    ensures Under(tree, root, n) <==> n in Rollup(tree, table, root)
  {
    RollupIsSubtree(tree, table, root);
  }

  lemma BelowOneMore(tree: Tree, roots: seq<Id>, r: Id, n: Id)
    requires WellNested(tree)
    ensures BelowFrontier(tree, roots + [r], n) <==> BelowFrontier(tree, roots, n) || Under(tree, r, n)
  {
    assert r in roots + [r];
    if BelowFrontier(tree, roots, n) {
      var q :| q in roots && Under(tree, q, n);
      assert q in roots + [r];
    }
  }

  /** Everything a validated node rolls up is itself a candidate: no second scope check is needed. */
  lemma RollupStaysInScope(tree: Tree, table: seq<Id>, granted: set<Id>, node: Id, n: Id)
    requires WellNested(tree) && Enumerates(table, tree) && node in Visible(tree, granted)
    requires n in Rollup(tree, table, node)
    ensures n in Visible(tree, granted)
  {
    RollupIsSubtree(tree, table, node);
    var r :| r in granted && Under(tree, r, node);
    UnderIsTransitive(tree, r, node, n);
  }

  // ----- Sums over a rollup -----

  function ValuesOf(own: map<Id, real>, nodes: set<Id>): map<Id, real> {
    map n | n in nodes :: At(own, n)
  }

  ghost function SumOver(own: map<Id, real>, nodes: set<Id>): real {
    Total(ValuesOf(own, nodes))
  }

  lemma SumAdds(own: map<Id, real>, a: set<Id>, n: Id)
    requires n !in a
    ensures SumOver(own, a + {n}) == SumOver(own, a) + At(own, n)
  {
    var before := ValuesOf(own, a);
    assert ValuesOf(own, a + {n}) == before[n := At(before, n) + At(own, n)];
    TotalAdd(before, n, At(own, n));
  }

  lemma {:induction false} SumOfParts(own: map<Id, real>, a: set<Id>, b: set<Id>)
    requires a !! b
    ensures SumOver(own, a + b) == SumOver(own, a) + SumOver(own, b)
    decreases |b|
  {
    if b == {} {
      assert a + b == a;
      assert ValuesOf(own, b) == map[];
    } else {
      var n :| n in b;
      SumOfParts(own, a, b - {n});
      SumAdds(own, a + (b - {n}), n);
      SumAdds(own, b - {n}, n);
      assert a + (b - {n}) + {n} == a + b;
      assert b - {n} + {n} == b;
    }
  }

  ghost function Children(tree: Tree, n: Id): set<Id> {
    set c | c in tree && IsChild(tree, n, c)
  }

  ghost function UnderAny(tree: Tree, roots: set<Id>): set<Id>
    requires WellNested(tree)
  {
    set n | n in tree && exists r :: r in roots && Under(tree, r, n)
  }

  lemma {:induction false} SiblingsShareNothing(tree: Tree, p: Id, a: Id, b: Id, n: Id)
    requires WellNested(tree) && IsChild(tree, p, a) && IsChild(tree, p, b) && Under(tree, a, n) && Under(tree, b, n)
    ensures a == b
    decreases Depth(tree[n].kind)
  {
    if a != b {
      if n == a {
        UnderIsDeeper(tree, b, a);
      } else if n == b {
        UnderIsDeeper(tree, a, b);
      } else {
        SiblingsShareNothing(tree, p, a, b, tree[n].parent.value);
      }
    }
  }

  ghost function SubtreeSum(tree: Tree, own: map<Id, real>, n: Id): real
    requires WellNested(tree)
  {
    SumOver(own, Subtree(tree, n))
  }

  ghost function ChildSums(tree: Tree, own: map<Id, real>, roots: set<Id>): map<Id, real>
    requires WellNested(tree)
  {
    map c | c in roots :: SubtreeSum(tree, own, c)
  }

  lemma OneMoreSibling(tree: Tree, p: Id, rest: set<Id>, c: Id)
    requires WellNested(tree) && rest + {c} <= Children(tree, p) && c !in rest
    ensures UnderAny(tree, rest + {c}) == UnderAny(tree, rest) + Subtree(tree, c)
    ensures UnderAny(tree, rest) !! Subtree(tree, c)
  {
    forall n | n in UnderAny(tree, rest)
      ensures n !in Subtree(tree, c)
    {
      var r :| r in rest && Under(tree, r, n);
      if Under(tree, c, n) {
        SiblingsShareNothing(tree, p, r, c, n);
      }
    }
  }

  lemma {:induction false} SumOfSiblings(tree: Tree, own: map<Id, real>, p: Id, some: set<Id>)
    requires WellNested(tree) && some <= Children(tree, p)
    ensures SumOver(own, UnderAny(tree, some)) == Total(ChildSums(tree, own, some))
    decreases |some|
  {
    if some == {} {
      assert UnderAny(tree, some) == {};
      assert ValuesOf(own, UnderAny(tree, some)) == map[];
      assert ChildSums(tree, own, some) == map[];
    } else {
      var c :| c in some;
      var rest := some - {c};
      assert some == rest + {c};
      SumOfSiblings(tree, own, p, rest);
      OneMoreSibling(tree, p, rest, c);
      hide SumOver, UnderAny, Subtree, ChildSums;
      SumOfParts(own, UnderAny(tree, rest), Subtree(tree, c));
      ChildSumsAdd(tree, own, rest, c);
    }
  }

  lemma ChildSumsAdd(tree: Tree, own: map<Id, real>, rest: set<Id>, c: Id)
    requires WellNested(tree) && c !in rest
    ensures Total(ChildSums(tree, own, rest + {c})) == Total(ChildSums(tree, own, rest)) + SubtreeSum(tree, own, c)
  {
    hide SubtreeSum;
    var before := ChildSums(tree, own, rest);
    assert ChildSums(tree, own, rest + {c}) == before[c := At(before, c) + SubtreeSum(tree, own, c)];
    TotalAdd(before, c, SubtreeSum(tree, own, c));
  }

  /** A rollup is the node's own value plus the rollups of its active children. */
  lemma RollupAdds(tree: Tree, own: map<Id, real>, n: Id)
    requires WellNested(tree) && n in tree && tree[n].active
    ensures SubtreeSum(tree, own, n) == At(own, n) + Total(ChildSums(tree, own, Children(tree, n)))
  {
    var below := UnderAny(tree, Children(tree, n));
    forall m
      ensures m in Subtree(tree, n) <==> m == n || m in below
      ensures !(m == n && m in below)
    {
      SubtreeSplits(tree, n, m);
    }
    assert Subtree(tree, n) == below + {n};
    SumAdds(own, below, n);
    SumOfSiblings(tree, own, n, Children(tree, n));
  }

  lemma {:induction false} SubtreeSplits(tree: Tree, n: Id, m: Id)
    requires WellNested(tree) && n in tree && tree[n].active
    ensures m in Subtree(tree, n) <==> m == n || m in UnderAny(tree, Children(tree, n))
    ensures n !in UnderAny(tree, Children(tree, n))
    decreases if m in tree then Depth(tree[m].kind) else 0
  {
    if n in UnderAny(tree, Children(tree, n)) {
      var c :| c in Children(tree, n) && Under(tree, c, n);
      NotBelowOwnChild(tree, n, c);
    }
    if m != n && m in tree && tree[m].active && tree[m].parent.Some? {
      var p := tree[m].parent.value;
      SubtreeSplits(tree, n, p);
      if Under(tree, n, m) {
        if p == n {
          assert m in Children(tree, n) && Under(tree, m, m);
        } else {
          var c :| c in Children(tree, n) && Under(tree, c, p);
          assert Under(tree, c, m);
        }
      }
    }
    if m in UnderAny(tree, Children(tree, n)) {
      var c :| c in Children(tree, n) && Under(tree, c, m);
      assert Under(tree, n, c);
      UnderIsTransitive(tree, n, c, m);
    }
  }

  lemma NotBelowOwnChild(tree: Tree, n: Id, c: Id)
    requires WellNested(tree) && IsChild(tree, n, c)
    ensures !Under(tree, c, n)
  {
    if Under(tree, c, n) && c != n {
      UnderIsDeeper(tree, c, n);
    }
  }

  // ----- Labels -----

  /** Where a label starts: at a license boundary, at a root, or below an inactive parent. */
  predicate StartsLabel(tree: Tree, n: Id)
    requires n in tree
  {
    tree[n].boundary || tree[n].parent.None? || tree[n].parent.value !in tree || !tree[tree[n].parent.value].active
  }

  /** The path of a label: from parent to child down to `n`, from the nearest place a label may start. */
  ghost predicate LabelChain(tree: Tree, n: Id, chain: seq<Id>) {
    && chain != [] && chain[|chain| - 1] == n
    && (forall i | 0 <= i < |chain| :: chain[i] in tree)
    && (forall i | 0 < i < |chain| :: tree[chain[i]].parent == Some(chain[i - 1]))
    && StartsLabel(tree, chain[0])
    && (forall i | 0 < i < |chain| :: !StartsLabel(tree, chain[i]))
  }

  function NamesOf(tree: Tree, chain: seq<Id>): seq<string>
    requires forall i | 0 <= i < |chain| :: chain[i] in tree
  {
    seq(|chain|, i requires 0 <= i < |chain| => tree[chain[i]].name)
  }

  /** A node has one such path, so its label is determined. */
  lemma {:induction false} LabelChainIsUnique(tree: Tree, n: Id, chain: seq<Id>, other: seq<Id>)
    requires LabelChain(tree, n, chain) && LabelChain(tree, n, other)
    ensures chain == other
    decreases |chain|
  {
    var last, end := |chain| - 1, |other| - 1;
    if last > 0 {
      assert !StartsLabel(tree, chain[last]);
      assert end > 0;
      assert chain[last - 1] == other[end - 1];
      assert LabelChain(tree, chain[last - 1], chain[..last]);
      assert LabelChain(tree, chain[last - 1], other[..end]);
      LabelChainIsUnique(tree, chain[last - 1], chain[..last], other[..end]);
      assert chain == chain[..last] + [n] && other == other[..end] + [n];
    } else {
      assert end == 0;
    }
  }

  /** The first node is a license boundary, a root or the child of an inactive node, and no later one is any of these. */
  ghost predicate EndsAtBoundary(tree: Tree, chain: seq<Id>) {
    && chain != [] && (forall i | 0 <= i < |chain| :: chain[i] in tree)
    && (tree[chain[0]].boundary || tree[chain[0]].parent.None? ||
        (tree[chain[0]].parent.value in tree ==> !tree[tree[chain[0]].parent.value].active))
    && forall i | 0 < i < |chain| ::
         !tree[chain[i]].boundary && tree[chain[i]].parent.Some? &&
         tree[chain[i]].parent.value in tree && tree[tree[chain[i]].parent.value].active
  }

  lemma LabelChainEnds(tree: Tree, n: Id, chain: seq<Id>)
    requires LabelChain(tree, n, chain)
    ensures EndsAtBoundary(tree, chain)
  {
  }

  /** The walk climbs collecting names, then reverses them. */
  method LabelPath(tree: Tree, n: Id) returns (names: seq<string>)
    requires WellNested(tree) && n in tree
    ensures exists chain: seq<Id> :: LabelChain(tree, n, chain) && names == NamesOf(tree, chain) && EndsAtBoundary(tree, chain)
  {
    names := [tree[n].name];
    ghost var chain := [n];
    var at := n;
    while tree[at].parent.Some? && !tree[at].boundary
      invariant at in tree && chain != [] && chain[0] == at && chain[|chain| - 1] == n
      invariant forall i | 0 <= i < |chain| :: chain[i] in tree
      invariant forall i | 0 < i < |chain| :: tree[chain[i]].parent == Some(chain[i - 1]) && !StartsLabel(tree, chain[i])
      invariant names == NamesOf(tree, chain)
      decreases Depth(tree[at].kind)
    {
      var parent := tree[at].parent.value;
      if !tree[parent].active {
        break;
      }
      names := [tree[parent].name] + names;
      chain := [parent] + chain;
      at := parent;
    }
    assert LabelChain(tree, n, chain);
    LabelChainEnds(tree, n, chain);
  }
}
