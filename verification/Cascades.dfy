/**
 The questionnaire as a constraint system: the engine's spec is data, and an answer set is
 legal when every answered question holds one of the options its cascade rules leave open.
 */
module Cascades {
  import opened Wrappers

  datatype Code = TM1A | TM1B | TM2 | TM3 | TM4 | TM5 | PP1 | P1 | P2 | InvestPct

  /** The nine codes that can be saved, in the order they are checked. InvestPct is stored but never saved here. */
  const ASKED: seq<Code> := [TM1A, TM1B, TM2, TM3, TM4, TM5, PP1, P1, P2]

  /** A question's `options` entry: a list, a product/services table, or anything else. */
  datatype Options =
    | Flat(labels: seq<string>)
    | Branched(product: seq<string>, services: seq<string>)
    | NoOptions

  /** `tm1a_to_tm1b`: fires when the rule looks at TM1A and TM1A holds `answer`. */
  datatype RemoveRule = RemoveRule(looksAtTm1a: bool, answer: Option<string>, option: Option<string>)

  datatype Condition = Condition(question: Option<Code>, noOrUnanswered: bool)

  /** `tm1a_tm1b_to_tm2`: an empty `options` list counts as no rule. */
  datatype ForceRule = ForceRule(conditions: seq<Condition>, options: seq<string>)

  datatype Spec = Spec(questions: map<Code, Options>, remove: RemoveRule, force: ForceRule,
                       tm3ByTm2: map<string, seq<string>>)

  /** Answered questions only: a cleared or missing answer is an absent key. */
  type Answers = map<Code, string>

  /** One request: `None` clears the question, `Some` sets it. */
  type Changes = map<Code, Option<string>>

  function Lookup(answers: Answers, c: Code): Option<string> {
    if c in answers then Some(answers[c]) else None
  }

  function Merge(current: Answers, changes: Changes): Answers {
    map c | c in current.Keys + changes.Keys && (c in changes ==> changes[c].Some?)
      :: if c in changes then changes[c].value else current[c]
  }

  function Without(options: seq<string>, gone: string): seq<string> {
    if options == [] then []
    else (if options[0] == gone then [] else [options[0]]) + Without(options[1..], gone)
  }

  function BaseOptions(spec: Spec, c: Code, isProduct: bool): Option<seq<string>> {
    if c !in spec.questions then None
    else match spec.questions[c]
      case Flat(labels) => Some(labels)
      case Branched(product, services) => Some(if isProduct then product else services)
      case NoOptions => Some([])
  }

  predicate NoOrUnanswered(answers: Answers, question: Option<Code>) {
    match question
    case None => true
    case Some(c) => c !in answers || answers[c] == "" || answers[c] == "No"
  }

  predicate Forces(rule: ForceRule, answers: Answers) {
    && rule.conditions != [] && rule.options != []
    && forall i | 0 <= i < |rule.conditions| && rule.conditions[i].noOrUnanswered ::
         NoOrUnanswered(answers, rule.conditions[i].question)
  }

  /** The options a question still has, given the whole answer set that would result. */
  function CascadedOptions(spec: Spec, c: Code, isProduct: bool, answers: Answers): Option<seq<string>> {
    var base := BaseOptions(spec, c, isProduct);
    if base.None? then None
    else if c == TM1B && !isProduct then
      var rule := spec.remove;
      if rule.looksAtTm1a && Lookup(answers, TM1A) == rule.answer && rule.option.Some? && rule.option.value in base.value
      then Some(Without(base.value, rule.option.value))
      else base
    else if c == TM2 && !isProduct then
      if Forces(spec.force, answers) then Some(spec.force.options) else base
    else if c == TM3 then
      var tm2 := Lookup(answers, TM2);
      if tm2.Some? && tm2.value in spec.tm3ByTm2 then Some(spec.tm3ByTm2[tm2.value]) else Some(["N/A"])
    else base
  }

  predicate LegalAt(spec: Spec, c: Code, isProduct: bool, answers: Answers) {
    c in answers ==>
      var options := CascadedOptions(spec, c, isProduct, answers);
      options.Some? && answers[c] in options.value
  }

  predicate Asked(c: Code) {
    c != InvestPct
  }

  predicate Legal(spec: Spec, isProduct: bool, answers: Answers) {
    forall c: Code | Asked(c) :: LegalAt(spec, c, isProduct, answers)
  }

  lemma AskedIsChecked(c: Code)
    ensures Asked(c) <==> c in ASKED
  {
    assert ASKED[0] == TM1A && ASKED[1] == TM1B && ASKED[2] == TM2 && ASKED[3] == TM3 && ASKED[4] == TM4;
    assert ASKED[5] == TM5 && ASKED[6] == PP1 && ASKED[7] == P1 && ASKED[8] == P2;
  }

  datatype Fault = NoSuchQuestion(code: Code) | IllegalAnswer(code: Code)

  /** The check loop of the answer endpoint: stops at the first question whose answer is not open. */
  method FindFault(spec: Spec, isProduct: bool, answers: Answers) returns (fault: Option<Fault>)
    ensures fault.None? <==> Legal(spec, isProduct, answers)
    ensures fault == FirstFault(spec, isProduct, answers, 0)
  {
    for i := 0 to |ASKED|
      invariant forall j | 0 <= j < i :: LegalAt(spec, ASKED[j], isProduct, answers)
      invariant FirstFault(spec, isProduct, answers, 0) == FirstFault(spec, isProduct, answers, i)
    {
      var c := ASKED[i];
      if c in answers {
        var options := CascadedOptions(spec, c, isProduct, answers);
        if options.None? {
          return Some(NoSuchQuestion(c));
        }
        if answers[c] !in options.value {
          return Some(IllegalAnswer(c));
        }
      }
    }
    forall c: Code | Asked(c)
      ensures LegalAt(spec, c, isProduct, answers)
    {
      AskedIsChecked(c);
    }
    return None;
  }

  function FirstFault(spec: Spec, isProduct: bool, answers: Answers, from: nat): (fault: Option<Fault>)
    requires from <= |ASKED|
    ensures fault.None? <==> forall i | from <= i < |ASKED| :: LegalAt(spec, ASKED[i], isProduct, answers)
    ensures fault.Some? ==> fault.value.code in answers && !LegalAt(spec, fault.value.code, isProduct, answers)
    ensures fault.Some? ==>
              (fault.value.NoSuchQuestion? <==> CascadedOptions(spec, fault.value.code, isProduct, answers).None?)
    decreases |ASKED| - from
  {
    if from == |ASKED| then None
    else
      var c := ASKED[from];
      var options := CascadedOptions(spec, c, isProduct, answers);
      if c in answers && options.None? then Some(NoSuchQuestion(c))
      else if c in answers && answers[c] !in options.value then Some(IllegalAnswer(c))
      else FirstFault(spec, isProduct, answers, from + 1)
  }

  lemma WithoutMembers(options: seq<string>, gone: string)
    ensures forall o :: o in Without(options, gone) <==> o in options && o != gone
  {
    if options != [] {
      WithoutMembers(options[1..], gone);
    }
  }

  /** What a set holds after changes: what they set, nothing where they clear, else what was there. */
  lemma MergedLookup(current: Answers, changes: Changes, c: Code)
    ensures Lookup(Merge(current, changes), c) == if c in changes then changes[c] else Lookup(current, c)
  {
  }

  /** The question's own list: the one of the type where there are two, and nothing where the entry is no list. */
  ghost predicate Listed(spec: Spec, c: Code, isProduct: bool, answer: string) {
    && c in spec.questions
    && match spec.questions[c]
       case Flat(labels) => answer in labels
       case Branched(product, services) => if isProduct then answer in product else answer in services
       case NoOptions => false
  }

  /** Every condition that counts holds: its question is unanswered, blank or "No". */
  ghost predicate AllNo(rule: ForceRule, answers: Answers) {
    forall condition | condition in rule.conditions && condition.noOrUnanswered && condition.question.Some? ::
      condition.question.value in answers ==>
        answers[condition.question.value] == "" || answers[condition.question.value] == "No"
  }

  /**
   What makes an answer legal, question by question. TM3 goes by TM2's answer alone, and is "N/A" for
   one without an entry; for services a TM1B option may be taken away by TM1A's answer, and TM2 may
   be forced; everything else goes by the question's own list.
   */
  lemma LegalAtMeans(spec: Spec, c: Code, isProduct: bool, answers: Answers)
    requires c in answers
    ensures LegalAt(spec, c, isProduct, answers) <==>
            && c in spec.questions
            && if c == TM3 then
                 if TM2 in answers && answers[TM2] in spec.tm3ByTm2 then answers[c] in spec.tm3ByTm2[answers[TM2]]
                 else answers[c] == "N/A"
               else if c == TM1B && !isProduct then
                 && Listed(spec, c, isProduct, answers[c])
                 && !(spec.remove.looksAtTm1a && spec.remove.option == Some(answers[c]) &&
                      spec.remove.answer == if TM1A in answers then Some(answers[TM1A]) else None)
               else if c == TM2 && !isProduct && spec.force.conditions != [] && spec.force.options != [] && AllNo(spec.force, answers)
               then answers[c] in spec.force.options
               else Listed(spec, c, isProduct, answers[c])
  {
    var list := BaseOptions(spec, c, isProduct);
    assert list.Some? ==> (answers[c] in list.value <==> Listed(spec, c, isProduct, answers[c]));
    if c == TM1B && list.Some? && spec.remove.option.Some? {
      WithoutMembers(list.value, spec.remove.option.value);
    }
    ForcesMeans(spec.force, answers);
    hide BaseOptions, Forces, AllNo, Without;
  }

  lemma ForcesMeans(rule: ForceRule, answers: Answers)
    ensures Forces(rule, answers) <==> rule.conditions != [] && rule.options != [] && AllNo(rule, answers)
  {
    if Forces(rule, answers) {
      forall condition | condition in rule.conditions && condition.noOrUnanswered && condition.question.Some?
        ensures condition.question.value in answers ==>
                  answers[condition.question.value] == "" || answers[condition.question.value] == "No"
      {
        var i :| 0 <= i < |rule.conditions| && rule.conditions[i] == condition;
        assert NoOrUnanswered(answers, rule.conditions[i].question);
      }
    }
    if rule.conditions != [] && rule.options != [] && AllNo(rule, answers) {
      forall i | 0 <= i < |rule.conditions| && rule.conditions[i].noOrUnanswered
        ensures NoOrUnanswered(answers, rule.conditions[i].question)
      {
        assert rule.conditions[i] in rule.conditions;
      }
    }
  }

  // ----- Legal answer sets are connected by single-question saves -----

  /** One save of one question, as the questionnaire form sends it. */
  datatype Move = Move(code: Code, answer: Option<string>)

  function Play(answers: Answers, moves: seq<Move>): Answers
    decreases |moves|
  {
    if moves == [] then answers
    else Play(Merge(answers, map[moves[0].code := moves[0].answer]), moves[1..])
  }

  predicate EachAccepted(spec: Spec, isProduct: bool, answers: Answers, moves: seq<Move>)
    decreases |moves|
  {
    moves == [] ||
    var next := Merge(answers, map[moves[0].code := moves[0].answer]);
    Legal(spec, isProduct, next) && EachAccepted(spec, isProduct, next, moves[1..])
  }

  /** No condition that counts in forcing TM2 looks at TM3, which itself is chosen by TM2. */
  predicate Tm2IgnoresTm3(spec: Spec) {
    forall i | 0 <= i < |spec.force.conditions| && spec.force.conditions[i].noOrUnanswered ::
      spec.force.conditions[i].question != Some(TM3)
  }

  predicate OnlyAsked(answers: Answers) {
    forall c | c in answers :: Asked(c)
  }

  /** The questions no cascade rule narrows. */
  predicate Free(c: Code) {
    c == TM1A || c == TM4 || c == TM5 || c == PP1 || c == P1 || c == P2
  }

  predicate Same(m: Answers, x: Answers, c: Code) {
    Lookup(m, c) == Lookup(x, c)
  }

  /** `m` has `x`'s answer to `c` and to everything the rule for `c` looks at. */
  ghost predicate TakenFrom(m: Answers, x: Answers, c: Code) {
    && Same(m, x, c)
    && (c == TM1B ==> Same(m, x, TM1A))
    && (c == TM2 ==> forall d: Code :: d != TM3 ==> Same(m, x, d))
    && (c == TM3 ==> Same(m, x, TM2))
  }

  lemma LegalTaken(spec: Spec, isProduct: bool, x: Answers, m: Answers, c: Code)
    requires Legal(spec, isProduct, x) && Tm2IgnoresTm3(spec) && Asked(c) && TakenFrom(m, x, c)
    ensures LegalAt(spec, c, isProduct, m)
  {
    assert LegalAt(spec, c, isProduct, x);
    if c == TM2 {
      forall i | 0 <= i < |spec.force.conditions| && spec.force.conditions[i].noOrUnanswered
        ensures NoOrUnanswered(m, spec.force.conditions[i].question) ==
                NoOrUnanswered(x, spec.force.conditions[i].question)
      {
        var question := spec.force.conditions[i].question;
        if question.Some? {
          assert Same(m, x, question.value);
        }
      }
    }
  }

  /** Clear downstream first, then set every question of `b`, upstream before downstream. */
  function Clearing(): seq<Move> {
    [Move(TM3, None), Move(TM2, None), Move(TM1B, None)]
  }

  function Rank(c: Code): nat {
    match c
    case TM1A => 0 case TM4 => 1 case TM5 => 2 case PP1 => 3 case P1 => 4 case P2 => 5
    case TM1B => 6 case TM2 => 7 case TM3 => 8 case InvestPct => 9
  }

  function Ranked(i: nat): (c: Code)
    requires i < 9
    ensures Rank(c) == i
  {
    match i
    case 0 => TM1A case 1 => TM4 case 2 => TM5 case 3 => PP1 case 4 => P1 case 5 => P2
    case 6 => TM1B case 7 => TM2 case _ => TM3
  }

  function Setting(b: Answers, from: nat): seq<Move>
    requires from <= 9
    decreases 9 - from
  {
    if from == 9 then []
    else [Move(Ranked(from), Lookup(b, Ranked(from)))] + Setting(b, from + 1)
  }

  /** After `from` settings: the codes set so far hold `b`'s answer, the free ones still to come `a`'s. */
  function Halfway(a: Answers, b: Answers, from: nat): Answers {
    map c | c in a.Keys + b.Keys && Asked(c) && (if Rank(c) < from then c in b else Free(c) && c in a)
      :: if Rank(c) < from then b[c] else a[c]
  }

  lemma HalfwayTakes(a: Answers, b: Answers, from: nat, c: Code)
    requires OnlyAsked(a) && OnlyAsked(b) && c in Halfway(a, b, from)
    ensures TakenFrom(Halfway(a, b, from), if Rank(c) < from then b else a, c)
  {
  }

  lemma HalfwayIsLegal(spec: Spec, isProduct: bool, a: Answers, b: Answers, from: nat)
    requires Legal(spec, isProduct, a) && Legal(spec, isProduct, b) && Tm2IgnoresTm3(spec)
    requires OnlyAsked(a) && OnlyAsked(b)
    ensures Legal(spec, isProduct, Halfway(a, b, from))
  {
    var m := Halfway(a, b, from);
    hide CascadedOptions, TakenFrom, Halfway, Tm2IgnoresTm3;
    forall c: Code | Asked(c)
      ensures LegalAt(spec, c, isProduct, m)
    {
      if c in m {
        var x := if Rank(c) < from then b else a;
        HalfwayTakes(a, b, from, c);
        LegalTaken(spec, isProduct, x, m, c);
      }
    }
  }

  lemma RankedRank(c: Code)
    requires Asked(c)
    ensures Ranked(Rank(c)) == c
  {
  }

  lemma NextHalfway(a: Answers, b: Answers, from: nat)
    requires from < 9
    ensures Merge(Halfway(a, b, from), map[Ranked(from) := Lookup(b, Ranked(from))]) == Halfway(a, b, from + 1)
  {
    var c, here, next := Ranked(from), Halfway(a, b, from), Halfway(a, b, from + 1);
    var merged := Merge(here, map[c := Lookup(b, c)]);
    forall d: Code
      ensures Same(merged, next, d)
    {
      if d == c {
        assert Lookup(merged, c) == Lookup(b, c);
      } else {
        assert Lookup(merged, d) == Lookup(here, d);
        if Asked(d) && Rank(d) == from {
          RankedRank(d);
        }
      }
    }
    SameEverywhere(merged, next);
  }

  lemma SameEverywhere(m: Answers, x: Answers)
    requires forall c: Code :: Same(m, x, c)
    ensures m == x
  {
    forall c: Code
      ensures c in m <==> c in x
      ensures c in m ==> m[c] == x[c]
    {
      assert Same(m, x, c);
    }
  }

  lemma PlayOne(spec: Spec, isProduct: bool, answers: Answers, next: Answers, move: Move, rest: seq<Move>)
    requires Merge(answers, map[move.code := move.answer]) == next
    ensures Play(answers, [move] + rest) == Play(next, rest)
    ensures Legal(spec, isProduct, next) && EachAccepted(spec, isProduct, next, rest) ==>
              EachAccepted(spec, isProduct, answers, [move] + rest)
  {
    assert ([move] + rest)[1..] == rest;
  }

  lemma HalfwayDone(a: Answers, b: Answers)
    requires OnlyAsked(b)
    ensures Halfway(a, b, 9) == b
  {
  }

  lemma {:induction false} SettingReaches(spec: Spec, isProduct: bool, a: Answers, b: Answers, from: nat)
    requires from <= 9
    requires Legal(spec, isProduct, a) && Legal(spec, isProduct, b) && Tm2IgnoresTm3(spec)
    requires OnlyAsked(a) && OnlyAsked(b)
    ensures EachAccepted(spec, isProduct, Halfway(a, b, from), Setting(b, from))
    ensures Play(Halfway(a, b, from), Setting(b, from)) == b
    decreases 9 - from
  {
    hide Halfway;
    if from == 9 {
      HalfwayDone(a, b);
    } else {
      var c := Ranked(from);
      hide Legal, Merge, OnlyAsked, Ranked, Tm2IgnoresTm3, EachAccepted, Play;
      NextHalfway(a, b, from);
      HalfwayIsLegal(spec, isProduct, a, b, from + 1);
      SettingReaches(spec, isProduct, a, b, from + 1);
      PlayOne(spec, isProduct, Halfway(a, b, from), Halfway(a, b, from + 1), Move(c, Lookup(b, c)), Setting(b, from + 1));
    }
  }

  /** Clearing a question keeps a set legal when no answer that remains looks at it. */
  lemma ClearedIsLegal(spec: Spec, isProduct: bool, a: Answers, c: Code)
    requires Legal(spec, isProduct, a) && Tm2IgnoresTm3(spec)
    requires c == TM3 || (c == TM2 && TM3 !in a) || (c == TM1B && TM3 !in a && TM2 !in a)
    ensures Legal(spec, isProduct, Merge(a, map[c := None]))
  {
    var m := Merge(a, map[c := None]);
    forall d: Code | Asked(d)
      ensures LegalAt(spec, d, isProduct, m)
    {
      if d in m {
        assert TakenFrom(m, a, d);
        LegalTaken(spec, isProduct, a, m, d);
      }
    }
  }

  function Path(b: Answers): seq<Move> {
    Clearing() + Setting(b, 0)
  }

  lemma ClearedThree(a: Answers, b: Answers)
    requires OnlyAsked(a)
    ensures Merge(Merge(Merge(a, map[TM3 := None]), map[TM2 := None]), map[TM1B := None]) == Halfway(a, b, 0)
  {
    var noTm3 := Merge(a, map[TM3 := None]);
    var noTm2 := Merge(noTm3, map[TM2 := None]);
    forall d: Code
      ensures Same(Merge(noTm2, map[TM1B := None]), Halfway(a, b, 0), d)
    {
      LookupMerged(a, TM3, None, d);
      LookupMerged(noTm3, TM2, None, d);
      LookupMerged(noTm2, TM1B, None, d);
    }
    SameEverywhere(Merge(noTm2, map[TM1B := None]), Halfway(a, b, 0));
  }

  lemma LookupMerged(m: Answers, c: Code, answer: Option<string>, d: Code)
    ensures Lookup(Merge(m, map[c := answer]), d) == if d == c then answer else Lookup(m, d)
  {
  }

  /** From any legal set every other one of the same type is reached by single saves, each of them accepted. */
  lemma {:induction false} LegalSetsAreConnected(spec: Spec, isProduct: bool, a: Answers, b: Answers)
    requires Legal(spec, isProduct, a) && Legal(spec, isProduct, b) && Tm2IgnoresTm3(spec)
    requires OnlyAsked(a) && OnlyAsked(b)
    ensures EachAccepted(spec, isProduct, a, Path(b)) && Play(a, Path(b)) == b
  {
    var noTm3 := Merge(a, map[TM3 := None]);
    var noTm2 := Merge(noTm3, map[TM2 := None]);
    var noTm1b := Merge(noTm2, map[TM1B := None]);
    ClearedIsLegal(spec, isProduct, a, TM3);
    ClearedIsLegal(spec, isProduct, noTm3, TM2);
    ClearedIsLegal(spec, isProduct, noTm2, TM1B);
    ClearedThree(a, b);
    SettingReaches(spec, isProduct, a, b, 0);
    var set3 := Setting(b, 0);
    var set2 := [Move(TM1B, None)] + set3;
    var set1 := [Move(TM2, None)] + set2;
    PlayOne(spec, isProduct, noTm2, noTm1b, Move(TM1B, None), set3);
    PlayOne(spec, isProduct, noTm3, noTm2, Move(TM2, None), set2);
    PlayOne(spec, isProduct, a, noTm3, Move(TM3, None), set1);
    assert Path(b) == [Move(TM3, None)] + set1;
  }

  const SELF_REFERRING: Spec := Spec(
    map[TM2 := Flat(["Yes, us", "No"]), TM3 := NoOptions],
    RemoveRule(false, None, None),
    ForceRule([Condition(Some(TM3), true)], ["No"]),
    map["Yes, us" := ["We have performance issues"], "No" := ["N/A"]])

  /**
   The hypothesis on TM3 cannot be dropped. With a condition that looks at TM3, the legal set
   {TM2 = "Yes, us", TM3 = "We have performance issues"} is cut off: no single save enters it
   from any other legal set.
   */
  lemma Tm3ConditionSeparates(b: Answers, m: Answers, c: Code, answer: Option<string>)
    requires b == map[TM2 := "Yes, us", TM3 := "We have performance issues"]
    ensures Legal(SELF_REFERRING, false, b)
    ensures Legal(SELF_REFERRING, false, m) && OnlyAsked(m) && Merge(m, map[c := answer]) == b ==> m == b
  {
    CutOffIsLegal(b);
    if Legal(SELF_REFERRING, false, m) && OnlyAsked(m) && Merge(m, map[c := answer]) == b {
      OneLegalNeighbour(m);
      OthersUnasked(m, c);
      LookupMerged(m, c, answer, TM2);
      LookupMerged(m, c, answer, TM3);
      ChangedOne(m, b, c, answer);
    }
  }

  lemma ChangedOne(m: Answers, b: Answers, c: Code, answer: Option<string>)
    requires Merge(m, map[c := answer]) == b && (Lookup(m, c) == Lookup(b, c))
    ensures m == b
  {
    assert forall d | d != c :: d in Merge(m, map[c := answer]) <==> d in m;
  }

  lemma CutOffIsLegal(b: Answers)
    requires b == map[TM2 := "Yes, us", TM3 := "We have performance issues"]
    ensures Legal(SELF_REFERRING, false, b)
  {
    assert !NoOrUnanswered(b, SELF_REFERRING.force.conditions[0].question);
    assert "Yes, us" in ["Yes, us", "No"];
    assert "We have performance issues" in ["We have performance issues"];
  }

  lemma OthersUnasked(m: Answers, c: Code)
    requires Legal(SELF_REFERRING, false, m) && OnlyAsked(m)
    ensures c in m ==> c == TM2 || c == TM3
  {
    assert Asked(c) ==> LegalAt(SELF_REFERRING, c, false, m);
  }

  lemma OneLegalNeighbour(m: Answers)
    requires Legal(SELF_REFERRING, false, m)
    ensures Lookup(m, TM2) == Some("Yes, us") ==> Lookup(m, TM3) == Some("We have performance issues")
    ensures Lookup(m, TM3) == Some("We have performance issues") ==> Lookup(m, TM2) == Some("Yes, us")
  {
    assert LegalAt(SELF_REFERRING, TM2, false, m) && LegalAt(SELF_REFERRING, TM3, false, m);
    assert "We have performance issues" !in ["N/A"];
    assert "Yes, us" !in ["No"];
    if Lookup(m, TM3) == None {
      assert Forces(SELF_REFERRING.force, m);
    }
  }
}
