/**
 The demo generator's repair of an answer set, against the server's check of the same rules: two
 separately written programs for one constraint system.
 */
module DemoGates {
  import opened Wrappers
  import opened Cascades

  const NO := "No"
  const FEWER_THAN_US := "Yes, but not as many building blocks as us"
  const YES_US := "Yes, us"
  const YES_COMPETITOR := "Yes, one of the competitors"
  const NOT_APPLICABLE := "N/A"

  /** TM3 is chosen by TM2 entirely; the first option is the one a repair falls back to. */
  const TM3_BY_TM2: map<string, seq<string>> := map[
    YES_US := ["We are performing satisfactorily/unknown", "We have performance issues"],
    YES_COMPETITOR := ["Incumbent competitor is performing satisfactorily/unknown",
                       "Incumbent competitor has performance issues"],
    NO := [NOT_APPLICABLE]]

  const TM2_OPTIONS := [YES_US, YES_COMPETITOR, NO]

  const TM3_OPTIONS := [
    "We are performing satisfactorily/unknown", "We have performance issues", NOT_APPLICABLE,
    "Incumbent competitor is performing satisfactorily/unknown", "Incumbent competitor has performance issues"]

  const TM1B_SERVICES := ["On contract today", FEWER_THAN_US, NO]

  /** The cascade rules the engine ships, over the options the generator draws from. */
  const SHIPPED: Spec := Spec(
    map[TM1A := Branched(["Same", "Better", "Worse"],
                         ["On contract today", "Yes, but not as many building blocks as competitor",
                          "No, but our teammates are on contract today", NO]),
        TM1B := Branched(["Same Level", "More Mature", "Less Mature"], TM1B_SERVICES),
        TM2 := Flat(TM2_OPTIONS),
        TM3 := Flat(TM3_OPTIONS),
        TM4 := Flat(["Yes, we will outsource most of the actual work requested (\"noble work\")",
                     "Yes, we will outsource some of the actual work requested (\"noble work\")", NO]),
        TM5 := Flat([NO, "Low", "Moderate", "High"]),
        PP1 := Flat(["Yes", NO]),
        P1 := Flat(["3% above normal", "2% above normal", "1% above normal", "Normal Bid", "1% lower than normal",
                    "2% lower than normal", "3% lower than normal", "4% lower than normal"]),
        P2 := Flat(["Best Value", "LPTA"])],
    RemoveRule(true, Some(NO), Some(FEWER_THAN_US)),
    ForceRule([Condition(Some(TM1A), true), Condition(Some(TM1B), true)], [NO]),
    TM3_BY_TM2)

  /** The shipped rules meet the hypothesis, so all legal answer sets of a type are connected by accepted single saves. */
  lemma ShippedSetsAreConnected(isProduct: bool, a: Answers, b: Answers)
    ensures Tm2IgnoresTm3(SHIPPED)
    ensures Legal(SHIPPED, isProduct, a) && Legal(SHIPPED, isProduct, b) && OnlyAsked(a) && OnlyAsked(b) ==>
              EachAccepted(SHIPPED, isProduct, a, Path(b)) && Play(a, Path(b)) == b
  {
    ShippedIgnoresTm3();
    hide SHIPPED, Legal, EachAccepted, Play, Path, Tm2IgnoresTm3;
    if Legal(SHIPPED, isProduct, a) && Legal(SHIPPED, isProduct, b) && OnlyAsked(a) && OnlyAsked(b) {
      LegalSetsAreConnected(SHIPPED, isProduct, a, b);
    }
  }

  lemma ShippedIgnoresTm3()
    ensures Tm2IgnoresTm3(SHIPPED)
  {
  }

  /** Every question answered from its base options. */
  predicate Drawn(isProduct: bool, a: Answers) {
    forall c: Code | Asked(c) ::
      c in a && BaseOptions(SHIPPED, c, isProduct).Some? && a[c] in BaseOptions(SHIPPED, c, isProduct).value
  }

  predicate Answered(a: Answers) {
    TM1A in a && TM1B in a && TM2 in a && TM3 in a && a[TM2] in TM3_BY_TM2
  }

  function GateTm1b(isProduct: bool, a: Answers): Answers
    requires Answered(a)
  {
    if !isProduct && a[TM1A] == NO && a[TM1B] == FEWER_THAN_US then a[TM1B := NO] else a
  }

  function GateTm2(isProduct: bool, a: Answers): Answers
    requires Answered(a)
  {
    if !isProduct && a[TM1A] == NO && a[TM1B] == NO then a[TM2 := NO] else a
  }

  function GateTm3(a: Answers): Answers
    requires Answered(a)
  {
    if a[TM3] in TM3_BY_TM2[a[TM2]] then a else a[TM3 := TM3_BY_TM2[a[TM2]][0]]
  }

  function Gate(isProduct: bool, a: Answers): Answers
    requires Answered(a)
  {
    GateTm3(GateTm2(isProduct, GateTm1b(isProduct, a)))
  }

  // ----- Which types are products -----

  predicate StartsWith(s: string, part: string) {
    |part| <= |s| && s[..|part|] == part
  }

  predicate Contains(s: string, part: string) {
    exists i :: 0 <= i <= |s| && StartsWith(s[i..], part)
  }

  function Lower(s: string): string {
    seq(|s|, i requires 0 <= i < |s| => if 'A' <= s[i] <= 'Z' then (s[i] as int + 32) as char else s[i])
  }

  /** Lower-casing, by the alphabets themselves. */
  lemma LowerMeans(s: string, i: nat)
    requires i < |s|
    ensures |Lower(s)| == |s|
    ensures forall k | 0 <= k < 26 && s[i] == "ABCDEFGHIJKLMNOPQRSTUVWXYZ"[k] :: Lower(s)[i] == "abcdefghijklmnopqrstuvwxyz"[k]
    ensures s[i] !in "ABCDEFGHIJKLMNOPQRSTUVWXYZ" ==> Lower(s)[i] == s[i]
  {
    var upper, lower := "ABCDEFGHIJKLMNOPQRSTUVWXYZ", "abcdefghijklmnopqrstuvwxyz";
    assert forall k | 0 <= k < 26 :: upper[k] as int == 'A' as int + k && lower[k] as int == 'a' as int + k;
    if 'A' <= s[i] <= 'Z' {
      assert upper[s[i] as int - 'A' as int] == s[i];
    }
  }

  predicate IsProduct(otype: string) {
    Contains(Lower(otype), "product") || Contains(Lower(otype), "dev") || Contains(Lower(otype), "existing")
  }

  lemma ContainsMeans(s: string, part: string)
    ensures Contains(s, part) <==> exists before: string, after: string :: s == before + part + after
  {
    if Contains(s, part) {
      var i :| 0 <= i <= |s| && StartsWith(s[i..], part);
      assert s == s[..i] + part + s[i..][|part|..];
    }
    if before: string, after: string :| s == before + part + after {
      assert s[|before|..] == part + after;
      assert (part + after)[..|part|] == part;
      assert StartsWith(s[|before|..], part);
    }
  }

  /** A type counts as a product exactly when one of three words stands somewhere in it, in any case. */
  lemma IsProductMeans(otype: string)
    ensures IsProduct(otype) <==>
            || (exists before: string, after: string :: Lower(otype) == before + "product" + after)
            || (exists before: string, after: string :: Lower(otype) == before + "dev" + after)
            || (exists before: string, after: string :: Lower(otype) == before + "existing" + after)
  {
    hide Contains, Lower;
    ContainsMeans(Lower(otype), "product");
    ContainsMeans(Lower(otype), "dev");
    ContainsMeans(Lower(otype), "existing");
  }

  class DemoPursuit {
    const otype: string
    var ans: Answers

    constructor (otype: string, ans: Answers)
      ensures this.otype == otype && this.ans == ans
    {
      this.otype, this.ans := otype, ans;
    }

    /** Re-applies every gate in place after any answer has changed. */
    method EnforceGates()
      requires Answered(ans)
      modifies this
      ensures ans == Gate(IsProduct(otype), old(ans))
    {
      var isProduct := IsProduct(otype);
      if !isProduct {
        if ans[TM1A] == NO && ans[TM1B] == FEWER_THAN_US {
          ans := ans[TM1B := NO];
        }
        if ans[TM1A] == NO && ans[TM1B] == NO {
          ans := ans[TM2 := NO];
        }
      }
      if ans[TM3] !in TM3_BY_TM2[ans[TM2]] {
        ans := ans[TM3 := TM3_BY_TM2[ans[TM2]][0]];
      }
    }
  }

  lemma Tm2IsKnown(tm2: string)
    ensures tm2 in TM2_OPTIONS <==> tm2 in TM3_BY_TM2
  {
    assert TM2_OPTIONS[0] == YES_US && TM2_OPTIONS[1] == YES_COMPETITOR && TM2_OPTIONS[2] == NO;
  }

  lemma DrawnIsAnswered(isProduct: bool, a: Answers)
    requires Drawn(isProduct, a)
    ensures Answered(a)
  {
    assert Asked(TM1A) && Asked(TM1B) && Asked(TM2) && Asked(TM3);
    Tm2IsKnown(a[TM2]);
  }

  lemma LabelsDiffer()
    ensures NO != FEWER_THAN_US && NO != "" && YES_US != NO && YES_COMPETITOR != NO
  {
    assert |NO| == 2;
  }

  lemma FallbackExists()
    ensures NO in TM3_BY_TM2 && forall tm2 | tm2 in TM3_BY_TM2 :: TM3_BY_TM2[tm2] != []
  {
  }

  /** In a gated set the constrained answers satisfy the generator's rules. */
  lemma GatedRules(isProduct: bool, a: Answers)
    requires Drawn(isProduct, a)
    ensures Answered(a) && Answered(Gate(isProduct, a))
    ensures var g := Gate(isProduct, a);
            && (!isProduct && g[TM1A] == NO ==> g[TM1B] != FEWER_THAN_US)
            && (!isProduct && g[TM1A] == NO && g[TM1B] == NO ==> g[TM2] == NO)
            && g[TM3] in TM3_BY_TM2[g[TM2]]
            && (g[TM1B] == a[TM1B] || (!isProduct && g[TM1B] == NO))
            && (forall c | c in a && c != TM1B && c != TM2 && c != TM3 :: c in g && g[c] == a[c])
            && g[TM2] in TM3_BY_TM2 && g.Keys == a.Keys
  {
    DrawnIsAnswered(isProduct, a);
    GatedUpstream(isProduct, a);
    FallbackExists();
    hide GateTm1b, GateTm2, Drawn, TM3_BY_TM2, SHIPPED;
  }

  /** The first two gates, which settle TM1B and then TM2. */
  lemma GatedUpstream(isProduct: bool, a: Answers)
    requires Answered(a)
    ensures Answered(GateTm1b(isProduct, a))
    ensures var h := GateTm2(isProduct, GateTm1b(isProduct, a));
            && (!isProduct && h[TM1A] == NO ==> h[TM1B] != FEWER_THAN_US)
            && (!isProduct && h[TM1A] == NO && h[TM1B] == NO ==> h[TM2] == NO)
            && (h[TM1B] == a[TM1B] || (!isProduct && h[TM1B] == NO))
            && (forall c | c in a && c != TM1B && c != TM2 :: c in h && h[c] == a[c])
            && h[TM2] in TM3_BY_TM2 && h.Keys == a.Keys
  {
    LabelsDiffer();
    FallbackExists();
  }

  lemma ForcedAtTm2(a: Answers)
    requires TM1A in a && TM1B in a
    ensures Forces(SHIPPED.force, a) <==> (a[TM1A] == "" || a[TM1A] == NO) && (a[TM1B] == "" || a[TM1B] == NO)
  {
    var conditions := SHIPPED.force.conditions;
    assert conditions[0] == Condition(Some(TM1A), true) && conditions[1] == Condition(Some(TM1B), true);
    assert NoOrUnanswered(a, Some(TM1A)) <==> a[TM1A] == "" || a[TM1A] == NO;
    assert NoOrUnanswered(a, Some(TM1B)) <==> a[TM1B] == "" || a[TM1B] == NO;
  }

  lemma NoBlankOption(isProduct: bool, c: Code, option: string)
    requires c == TM1A || c == TM1B
    requires option in BaseOptions(SHIPPED, c, isProduct).value
    ensures option != ""
  {
  }

  lemma Tm1bIsLegal(a: Answers)
    requires TM1A in a && TM1B in a && a[TM1B] in TM1B_SERVICES
    ensures LegalAt(SHIPPED, TM1B, false, a) <==> !(a[TM1A] == NO && a[TM1B] == FEWER_THAN_US)
  {
    WithoutMembers(TM1B_SERVICES, FEWER_THAN_US);
    assert TM1B_SERVICES[1] == FEWER_THAN_US;
  }

  lemma Tm2IsLegal(a: Answers)
    requires TM1A in a && TM1B in a && TM2 in a && a[TM2] in TM2_OPTIONS && a[TM1A] != "" && a[TM1B] != ""
    ensures LegalAt(SHIPPED, TM2, false, a) <==> (a[TM1A] == NO && a[TM1B] == NO ==> a[TM2] == NO)
  {
    ForcedAtTm2(a);
    assert [NO][0] == NO;
  }

  lemma Tm3IsLegal(isProduct: bool, a: Answers)
    requires Answered(a)
    ensures LegalAt(SHIPPED, TM3, isProduct, a) <==> a[TM3] in TM3_BY_TM2[a[TM2]]
  {
  }

  /** The constrained questions decide legality: the others are legal as drawn. */
  lemma LegalDrawn(isProduct: bool, a: Answers)
    requires Drawn(isProduct, a)
    ensures Answered(a)
    ensures Legal(SHIPPED, isProduct, a) <==>
            && (!isProduct ==> !(a[TM1A] == NO && a[TM1B] == FEWER_THAN_US))
            && (!isProduct && a[TM1A] == NO && a[TM1B] == NO ==> a[TM2] == NO)
            && a[TM3] in TM3_BY_TM2[a[TM2]]
  {
    hide SHIPPED, LegalAt, TM3_BY_TM2, TM2_OPTIONS, TM1B_SERVICES, FEWER_THAN_US, Drawn;
    DrawnIsAnswered(isProduct, a);
    assert Asked(TM1A) && Asked(TM1B) && Asked(TM2) && Asked(TM3);
    Tm3IsLegal(isProduct, a);
    if !isProduct {
      DrawnForServices(a);
      Tm1bIsLegal(a);
      Tm2IsLegal(a);
    }
    forall c: Code | Asked(c) && c != TM3 && (isProduct || (c != TM1B && c != TM2))
      ensures LegalAt(SHIPPED, c, isProduct, a)
    {
      LegalAsDrawn(isProduct, c, a);
    }
  }

  lemma DrawnForServices(a: Answers)
    requires Drawn(false, a) && Answered(a)
    ensures a[TM1B] in TM1B_SERVICES && a[TM2] in TM2_OPTIONS && a[TM1A] != "" && a[TM1B] != ""
  {
    assert Asked(TM1A) && Asked(TM1B);
    Tm2IsKnown(a[TM2]);
    NoBlankOption(false, TM1A, a[TM1A]);
    NoBlankOption(false, TM1B, a[TM1B]);
  }

  lemma LegalAsDrawn(isProduct: bool, c: Code, a: Answers)
    requires Drawn(isProduct, a) && Asked(c) && c != TM3 && (isProduct || (c != TM1B && c != TM2))
    ensures LegalAt(SHIPPED, c, isProduct, a)
  {
    hide SHIPPED;
    assert CascadedOptions(SHIPPED, c, isProduct, a) == BaseOptions(SHIPPED, c, isProduct);
  }

  lemma FallbackIsOption(tm2: string)
    requires tm2 in TM3_BY_TM2
    ensures TM3_BY_TM2[tm2] != [] && TM3_BY_TM2[tm2][0] in TM3_OPTIONS && TM3_BY_TM2[tm2][0] in TM3_BY_TM2[tm2]
  {
    assert TM3_OPTIONS[0] == TM3_BY_TM2[YES_US][0];
    assert TM3_OPTIONS[3] == TM3_BY_TM2[YES_COMPETITOR][0];
    assert TM3_OPTIONS[2] == TM3_BY_TM2[NO][0];
  }

  lemma GatedIsDrawn(isProduct: bool, a: Answers)
    requires Drawn(isProduct, a)
    ensures Answered(a) && Drawn(isProduct, Gate(isProduct, a))
  {
    GatedRules(isProduct, a);
    forall c: Code | Asked(c)
      ensures var g := Gate(isProduct, a);
              c in g && BaseOptions(SHIPPED, c, isProduct).Some? && g[c] in BaseOptions(SHIPPED, c, isProduct).value
    {
      GatedOption(isProduct, a, c);
    }
    hide SHIPPED, TM3_BY_TM2, FEWER_THAN_US, Gate;
  }

  lemma GatedOption(isProduct: bool, a: Answers, c: Code)
    requires Drawn(isProduct, a) && Answered(a) && Asked(c)
    ensures var g := Gate(isProduct, a);
            c in g && BaseOptions(SHIPPED, c, isProduct).Some? && g[c] in BaseOptions(SHIPPED, c, isProduct).value
  {
    hide Gate, TM3_BY_TM2, TM2_OPTIONS;
    GatedRules(isProduct, a);
    var g := Gate(isProduct, a);
    if c == TM2 {
      Tm2IsKnown(g[TM2]);
    } else if c == TM3 {
      GatedTm3(isProduct, a);
    } else {
      assert c in a;
      assert TM1B_SERVICES[2] == NO;
    }
  }

  lemma GatedTm3(isProduct: bool, a: Answers)
    requires Drawn(isProduct, a) && Answered(a)
    ensures TM3 in Gate(isProduct, a) && Gate(isProduct, a)[TM3] in TM3_OPTIONS
  {
    assert Asked(TM3) && BaseOptions(SHIPPED, TM3, isProduct) == Some(TM3_OPTIONS);
    assert a[TM3] in TM3_OPTIONS;
    var h := GateTm2(isProduct, GateTm1b(isProduct, a));
    GatedUpstream(isProduct, a);
    hide SHIPPED, Drawn, GateTm1b, GateTm2;
    FallbackIsOption(h[TM2]);
    hide TM3_BY_TM2, TM3_OPTIONS;
  }

  /** What a repair makes of each answer: a TM3 that TM2 does not allow becomes the first one that it does. */
  lemma GateMeans(isProduct: bool, a: Answers)
    requires Answered(a)
    ensures var g := Gate(isProduct, a);
            && g.Keys == a.Keys && (forall c | c in a && c != TM1B && c != TM2 && c != TM3 :: g[c] == a[c])
            && g[TM1B] == (if !isProduct && a[TM1A] == "No" && a[TM1B] == "Yes, but not as many building blocks as us"
                           then "No" else a[TM1B])
            && g[TM2] == (if !isProduct && a[TM1A] == "No" && g[TM1B] == "No" then "No" else a[TM2])
            && g[TM2] in TM3_BY_TM2
            && g[TM3] == (if a[TM3] in TM3_BY_TM2[g[TM2]] then a[TM3]
                          else if g[TM2] == "Yes, us" then "We are performing satisfactorily/unknown"
                          else if g[TM2] == "No" then "N/A"
                          else "Incumbent competitor is performing satisfactorily/unknown")
  {
    FirstAllowed();
    GatedUpstream(isProduct, a);
    hide TM3_BY_TM2;
  }

  lemma FirstAllowed()
    ensures forall tm2 | tm2 in TM3_BY_TM2 ::
              && TM3_BY_TM2[tm2] != []
              && TM3_BY_TM2[tm2][0] == if tm2 == "Yes, us" then "We are performing satisfactorily/unknown"
                                       else if tm2 == "No" then "N/A"
                                       else "Incumbent competitor is performing satisfactorily/unknown"
  {
    LabelsDiffer();
    assert YES_US != YES_COMPETITOR by {
      assert |YES_US| == 7 && |YES_COMPETITOR| == 27;
    }
  }

  /** Whatever was drawn, the repaired set passes the server's check. */
  lemma GatedIsLegal(isProduct: bool, a: Answers)
    requires Drawn(isProduct, a)
    ensures Answered(a) && Legal(SHIPPED, isProduct, Gate(isProduct, a))
  {
    GatedIsDrawn(isProduct, a);
    GatedRules(isProduct, a);
    LegalDrawn(isProduct, Gate(isProduct, a));
  }

  /** A repair touches a drawn set exactly when the server would refuse it. */
  lemma GateChangesOnlyIllegal(isProduct: bool, a: Answers)
    requires Drawn(isProduct, a)
    ensures Answered(a) && (Gate(isProduct, a) == a <==> Legal(SHIPPED, isProduct, a))
  {
    LegalDrawn(isProduct, a);
    GatedIsLegal(isProduct, a);
    LabelsDiffer();
    if Legal(SHIPPED, isProduct, a) {
      assert a[TM1B := a[TM1B]] == a && a[TM2 := a[TM2]] == a;
    }
  }

  lemma GateIsIdempotent(isProduct: bool, a: Answers)
    requires Drawn(isProduct, a)
    ensures Answered(a) && Answered(Gate(isProduct, a)) && Gate(isProduct, Gate(isProduct, a)) == Gate(isProduct, a)
  {
    GatedIsDrawn(isProduct, a);
    GatedIsLegal(isProduct, a);
    GateChangesOnlyIllegal(isProduct, Gate(isProduct, a));
  }
}
