/**
 Two ways to turn a market's display name into a code: the importer's character map with repeated
 replacement, and the sync job's regular expression. They are one on ASCII names; beyond ASCII the
 importer also keeps what its language calls a letter or digit, given here as a set of characters.
 */
module Slugs {
  import opened Sums

  predicate IsLower(c: char) { 'a' <= c <= 'z' }

  predicate IsAlnum(c: char) { 'A' <= c <= 'Z' || IsLower(c) || '0' <= c <= '9' }

  function UpperChar(c: char): char {
    if IsLower(c) then (c as int - 32) as char else c
  }

  function Upper(s: string): string {
    seq(|s|, i requires 0 <= i < |s| => UpperChar(s[i]))
  }

  predicate IsSpace(c: char) {
    c == ' ' || '\t' <= c <= '\r' || 28 <= c as int <= 31
  }

  const LOWER_CASE := "abcdefghijklmnopqrstuvwxyz"
  const UPPER_CASE := "ABCDEFGHIJKLMNOPQRSTUVWXYZ"
  const DIGITS := "0123456789"

  /** The classes of characters, and upper-casing, by the alphabets themselves. */
  lemma AlphabetsMean(c: char)
    ensures IsLower(c) <==> c in LOWER_CASE
    ensures IsAlnum(c) <==> c in UPPER_CASE || c in LOWER_CASE || c in DIGITS
    ensures c !in LOWER_CASE ==> UpperChar(c) == c
    ensures forall k | 0 <= k < 26 && c == LOWER_CASE[k] :: UpperChar(c) == UPPER_CASE[k]
  {
    LettersAreInOrder();
    if IsLower(c) {
      assert LOWER_CASE[c as int - 'a' as int] == c;
    }
    if 'A' <= c <= 'Z' {
      assert UPPER_CASE[c as int - 'A' as int] == c;
    }
    if '0' <= c <= '9' {
      assert DIGITS[c as int - '0' as int] == c;
    }
    hide LOWER_CASE, UPPER_CASE, DIGITS;
  }

  lemma SpacesMean(c: char)
    ensures IsSpace(c) <==> c as int in {9, 10, 11, 12, 13, 28, 29, 30, 31, 32}
  {
  }

  lemma LettersAreInOrder()
    ensures |LOWER_CASE| == 26 && forall k | 0 <= k < 26 :: LOWER_CASE[k] as int == 'a' as int + k
    ensures |UPPER_CASE| == 26 && forall k | 0 <= k < 26 :: UPPER_CASE[k] as int == 'A' as int + k
    ensures |DIGITS| == 10 && forall k | 0 <= k < 10 :: DIGITS[k] as int == '0' as int + k
  {
  }

  function MapChar(c: char): char {
    if IsAlnum(c) then c else '_'
  }

  /** Each character that is no letter or digit becomes an underscore. */
  function Mapped(s: string): string {
    seq(|s|, i requires 0 <= i < |s| => MapChar(s[i]))
  }

  predicate PairAt(s: string, i: int) {
    0 <= i < |s| - 1 && s[i] == '_' && s[i + 1] == '_'
  }

  predicate HasPair(s: string) {
    exists i :: 0 <= i < |s| - 1 && PairAt(s, i)
  }

  /** One left-to-right pass that replaces each two underscores by one. */
  function ReplacePairs(s: string): string {
    if |s| < 2 then s
    else if s[0] == '_' && s[1] == '_' then "_" + ReplacePairs(s[2..])
    else [s[0]] + ReplacePairs(s[1..])
  }

  function Lead(s: string): string {
    if s != [] && s[0] == '_' then Lead(s[1..]) else s
  }

  function Trail(s: string): string {
    if s != [] && s[|s| - 1] == '_' then Trail(s[..|s| - 1]) else s
  }

  function StripUnderscores(s: string): string {
    Trail(Lead(s))
  }

  /** Every run of underscores as one. */
  function Collapse(s: string): string {
    if |s| < 2 then s
    else if s[0] == '_' && s[1] == '_' then Collapse(s[1..])
    else [s[0]] + Collapse(s[1..])
  }

  /** What the importer's code must be: mapped, runs collapsed, stripped. */
  function Slug(name: string): string {
    StripUnderscores(Collapse(Mapped(Upper(name))))
  }

  // ----- The replace loop -----

  lemma CollapseCons(c: char, t: string)
    ensures Collapse([c] + t) == if c == '_' && t != [] && t[0] == '_' then Collapse(t) else [c] + Collapse(t)
  {
    assert ([c] + t)[1..] == t;
  }

  lemma {:induction false} ReplaceKeepsCollapse(s: string)
    ensures Collapse(ReplacePairs(s)) == Collapse(s)
    ensures |ReplacePairs(s)| <= |s| && (s != [] ==> ReplacePairs(s) != [] && ReplacePairs(s)[0] == s[0])
    decreases |s|
  {
    if |s| >= 2 {
      if s[0] == '_' && s[1] == '_' {
        ReplaceKeepsCollapse(s[2..]);
        CollapseCons('_', ReplacePairs(s[2..]));
        CollapseCons('_', s[2..]);
        assert s[1..] == ['_'] + s[2..];
      } else {
        ReplaceKeepsCollapse(s[1..]);
        CollapseCons(s[0], ReplacePairs(s[1..]));
        CollapseCons(s[0], s[1..]);
        assert s == [s[0]] + s[1..];
      }
    }
  }

  lemma {:induction false} ReplaceShortens(s: string, i: int)
    requires PairAt(s, i)
    ensures |ReplacePairs(s)| < |s|
    decreases |s|
  {
    if s[0] == '_' && s[1] == '_' {
      ReplaceKeepsCollapse(s[2..]);
    } else {
      assert PairAt(s[1..], i - 1);
      ReplaceShortens(s[1..], i - 1);
    }
  }

  lemma {:induction false} CollapsedAlready(s: string)
    requires !HasPair(s)
    ensures Collapse(s) == s
    decreases |s|
  {
    if |s| >= 2 {
      assert !PairAt(s, 0);
      forall i | 0 <= i < |s[1..]| - 1
        ensures !PairAt(s[1..], i)
      {
        assert !PairAt(s, i + 1);
      }
      CollapsedAlready(s[1..]);
    }
  }

  // ----- Beyond ASCII -----

  /** The characters outside ASCII that count as letters or digits; the code keeps them as they are. */
  predicate AreLetters(letters: set<char>) {
    forall c | c in letters :: !IsAlnum(c) && c != '_'
  }

  function MappedIn(letters: set<char>, text: string): string {
    seq(|text|, i requires 0 <= i < |text| => if IsAlnum(text[i]) || text[i] in letters then text[i] else '_')
  }

  /** What the importer's code must be, of an upper-cased name. */
  function SlugIn(letters: set<char>, text: string): string {
    StripUnderscores(Collapse(MappedIn(letters, text)))
  }

  method MarketCode(text: string, letters: set<char>) returns (code: string)
    ensures code == SlugIn(letters, text)
    ensures forall name | text == Upper(name) && (forall c | c in text :: c !in letters) :: code == Slug(name)
  {
    var out: string := [];
    for i := 0 to |text|
      invariant out == MappedIn(letters, text)[..i]
    {
      out := out + [if IsAlnum(text[i]) || text[i] in letters then text[i] else '_'];
    }
    code := out;
    assert code == MappedIn(letters, text);
    while HasPair(code)
      invariant Collapse(code) == Collapse(MappedIn(letters, text))
      decreases |code|
    {
      ReplaceKeepsCollapse(code);
      var i :| 0 <= i < |code| - 1 && PairAt(code, i);
      ReplaceShortens(code, i);
      code := ReplacePairs(code);
    }
    CollapsedAlready(code);
    code := StripUnderscores(code);
    MappedPlain(letters, text);
  }

  lemma MappedPlain(letters: set<char>, text: string)
    ensures (forall c | c in text :: c !in letters) ==> MappedIn(letters, text) == Mapped(text)
  {
  }

  // ----- The regular expression -----

  function SkipRun(s: string): (rest: string)
    ensures |rest| <= |s|
  {
    if s != [] && !IsAlnum(s[0]) then SkipRun(s[1..]) else s
  }

  /** Each maximal run of other characters becomes one underscore. */
  function SubstituteRuns(s: string): string
    decreases |s|
  {
    if s == [] then []
    else if IsAlnum(s[0]) then [s[0]] + SubstituteRuns(s[1..])
    else "_" + SubstituteRuns(SkipRun(s[1..]))
  }

  function TrimLead(s: string): string {
    if s != [] && IsSpace(s[0]) then TrimLead(s[1..]) else s
  }

  function TrimTrail(s: string): string {
    if s != [] && IsSpace(s[|s| - 1]) then TrimTrail(s[..|s| - 1]) else s
  }

  function Trim(s: string): string {
    TrimTrail(TrimLead(s))
  }

  predicate Blank(s: string) {
    forall i | 0 <= i < |s| :: IsSpace(s[i])
  }

  /** No white space at either end. */
  predicate Trimmed(s: string) {
    s != [] ==> !IsSpace(s[0]) && !IsSpace(s[|s| - 1])
  }

  lemma {:induction false} TrimLeadIs(s: string) returns (lead: string)
    ensures s == lead + TrimLead(s) && Blank(lead) && (TrimLead(s) != [] ==> !IsSpace(TrimLead(s)[0]))
    decreases |s|
  {
    lead := [];
    if s != [] && IsSpace(s[0]) {
      var rest := TrimLeadIs(s[1..]);
      lead := [s[0]] + rest;
      assert s == [s[0]] + s[1..];
    }
  }

  lemma {:induction false} TrimTrailIs(s: string) returns (tail: string)
    ensures s == TrimTrail(s) + tail && Blank(tail)
    ensures TrimTrail(s) != [] ==> TrimTrail(s)[0] == s[0] && !IsSpace(TrimTrail(s)[|TrimTrail(s)| - 1])
    decreases |s|
  {
    tail := [];
    if s != [] && IsSpace(s[|s| - 1]) {
      var rest := TrimTrailIs(s[..|s| - 1]);
      tail := rest + [s[|s| - 1]];
      assert s == s[..|s| - 1] + [s[|s| - 1]];
    }
  }

  /** Trimming takes the white space off both ends and nothing else. */
  lemma TrimMeans(s: string) returns (lead: string, tail: string)
    ensures s == lead + Trim(s) + tail && Blank(lead) && Blank(tail) && Trimmed(Trim(s))
  {
    lead := TrimLeadIs(s);
    tail := TrimTrailIs(TrimLead(s));
  }

  lemma {:induction false} TrimLeadOf(lead: string, s: string)
    requires Blank(lead) && (s != [] ==> !IsSpace(s[0]))
    ensures TrimLead(lead + s) == s
    decreases |lead|
  {
    if lead == [] {
      assert lead + s == s;
    } else {
      assert (lead + s)[1..] == lead[1..] + s;
      TrimLeadOf(lead[1..], s);
    }
  }

  lemma {:induction false} TrimTrailOf(s: string, tail: string)
    requires Blank(tail) && (s != [] ==> !IsSpace(s[|s| - 1]))
    ensures TrimTrail(s + tail) == s
    decreases |tail|
  {
    if tail == [] {
      assert s + tail == s;
    } else {
      assert (s + tail)[..|s + tail| - 1] == s + tail[..|tail| - 1];
      TrimTrailOf(s, tail[..|tail| - 1]);
    }
  }

  lemma TrimOf(lead: string, s: string, tail: string)
    requires Blank(lead) && Blank(tail) && Trimmed(s) && s != []
    ensures Trim(lead + s + tail) == s
  {
    assert lead + s + tail == lead + (s + tail);
    TrimLeadOf(lead, s + tail);
    TrimTrailOf(s, tail);
  }

  /** The sync job's base code, before its fallback and its suffix. */
  function RegexSlug(name: string): string {
    StripUnderscores(SubstituteRuns(Upper(Trim(name))))
  }

  lemma {:induction false} RunsCollapse(s: string)
    ensures SubstituteRuns(s) == Collapse(Mapped(s))
    decreases |s|
  {
    if s != [] {
      var t := s[1..];
      assert Mapped(s) == [MapChar(s[0])] + Mapped(t);
      CollapseCons(MapChar(s[0]), Mapped(t));
      RunsCollapse(t);
      if !IsAlnum(s[0]) {
        if t != [] && !IsAlnum(t[0]) {
          assert Mapped(t)[0] == '_';
          assert SkipRun(t) == SkipRun(t[1..]);
        } else {
          assert t != [] ==> Mapped(t)[0] != '_';
        }
      }
    }
  }

  lemma LeadingSpace(s: string)
    requires s != [] && !IsAlnum(s[0])
    ensures StripUnderscores(SubstituteRuns(s)) == StripUnderscores(SubstituteRuns(s[1..]))
  {
    var t := s[1..];
    assert SubstituteRuns(s)[1..] == SubstituteRuns(SkipRun(t));
    if t != [] && !IsAlnum(t[0]) {
      assert SkipRun(t) == SkipRun(t[1..]);
    }
  }

  lemma {:induction false} CollapseSnoc(s: string)
    ensures Collapse(s + "_") == Collapse(s) || Collapse(s + "_") == Collapse(s) + "_"
    decreases |s|
  {
    if s == [] {
    } else {
      assert s + "_" == [s[0]] + (s[1..] + "_");
      assert s == [s[0]] + s[1..];
      CollapseCons(s[0], s[1..] + "_");
      CollapseCons(s[0], s[1..]);
      CollapseSnoc(s[1..]);
    }
  }

  lemma {:induction false} StripSnoc(s: string)
    ensures StripUnderscores(s + "_") == StripUnderscores(s)
    decreases |s|
  {
    if s == [] {
      assert ("_")[1..] == [];
    } else if s[0] == '_' {
      assert (s + "_")[1..] == s[1..] + "_";
      StripSnoc(s[1..]);
    } else {
      assert (s + "_")[..|s|] == s;
    }
  }

  lemma TrailingSpace(s: string)
    requires s != [] && !IsAlnum(s[|s| - 1])
    ensures StripUnderscores(SubstituteRuns(s)) == StripUnderscores(SubstituteRuns(s[..|s| - 1]))
  {
    hide SubstituteRuns, Mapped, Collapse, StripUnderscores;
    var t := s[..|s| - 1];
    RunsCollapse(s);
    RunsCollapse(t);
    MappedSnoc(s);
    CollapseSnoc(Mapped(t));
    StripSnoc(Collapse(Mapped(t)));
  }

  lemma MappedSnoc(s: string)
    requires s != [] && !IsAlnum(s[|s| - 1])
    ensures Mapped(s) == Mapped(s[..|s| - 1]) + "_"
  {
  }

  lemma {:induction false} TrimLeadIrrelevant(s: string)
    ensures StripUnderscores(SubstituteRuns(Upper(TrimLead(s)))) == StripUnderscores(SubstituteRuns(Upper(s)))
    decreases |s|
  {
    if s != [] && IsSpace(s[0]) {
      assert Upper(s)[1..] == Upper(s[1..]);
      LeadingSpace(Upper(s));
      TrimLeadIrrelevant(s[1..]);
    }
  }

  lemma {:induction false} TrimTrailIrrelevant(s: string)
    ensures StripUnderscores(SubstituteRuns(Upper(TrimTrail(s)))) == StripUnderscores(SubstituteRuns(Upper(s)))
    decreases |s|
  {
    if s != [] && IsSpace(s[|s| - 1]) {
      var t := s[..|s| - 1];
      assert Upper(s)[..|s| - 1] == Upper(t);
      TrailingSpace(Upper(s));
      TrimTrailIrrelevant(t);
    }
  }

  /** The two algorithms give the same string on every name. */
  lemma SlugsAgree(name: string)
    ensures RegexSlug(name) == Slug(name)
  {
    TrimTrailIrrelevant(TrimLead(name));
    TrimLeadIrrelevant(name);
    RunsCollapse(Upper(name));
  }

  // ----- Agreement beyond ASCII -----

  /** A character other than the underscore outlives collapsing and stripping, and none is invented. */
  lemma {:induction false} CollapseKeeps(s: string, c: char)
    requires c != '_'
    ensures c in Collapse(s) <==> c in s
    decreases |s|
  {
    if |s| >= 2 {
      CollapseKeeps(s[1..], c);
      assert s == [s[0]] + s[1..];
    }
  }

  lemma {:induction false} LeadKeepsChar(s: string, c: char)
    requires c != '_'
    ensures c in Lead(s) <==> c in s
    decreases |s|
  {
    if s != [] && s[0] == '_' {
      LeadKeepsChar(s[1..], c);
      assert s == [s[0]] + s[1..];
    }
  }

  lemma {:induction false} TrailKeepsChar(s: string, c: char)
    requires c != '_'
    ensures c in Trail(s) <==> c in s
    decreases |s|
  {
    if s != [] && s[|s| - 1] == '_' {
      TrailKeepsChar(s[..|s| - 1], c);
      assert s == s[..|s| - 1] + [s[|s| - 1]];
    }
  }

  lemma SlugInKeeps(letters: set<char>, text: string, c: char)
    requires AreLetters(letters) && c in letters
    ensures c in SlugIn(letters, text) <==> c in text
  {
    var mapped := MappedIn(letters, text);
    assert c in mapped <==> c in text by {
      if c in text {
        var i :| 0 <= i < |text| && text[i] == c;
        assert mapped[i] == c;
      }
    }
    CollapseKeeps(mapped, c);
    LeadKeepsChar(Collapse(mapped), c);
    TrailKeepsChar(Lead(Collapse(mapped)), c);
  }

  /** The regular expression leaves letters and digits of ASCII only. */
  lemma RegexKeepsAscii(text: string, c: char)
    requires !IsAlnum(c) && c != '_'
    ensures c !in StripUnderscores(SubstituteRuns(text))
  {
    RunsCollapse(text);
    CollapseKeeps(Mapped(text), c);
    LeadKeepsChar(Collapse(Mapped(text)), c);
    TrailKeepsChar(Lead(Collapse(Mapped(text))), c);
  }

  predicate NoneAlnum(s: string) {
    forall c | c in s :: !IsAlnum(c)
  }

  lemma {:induction false} LeadIrrelevant(lead: string, text: string)
    requires NoneAlnum(lead)
    ensures StripUnderscores(SubstituteRuns(lead + text)) == StripUnderscores(SubstituteRuns(text))
    decreases |lead|
  {
    if lead == [] {
      assert lead + text == text;
    } else {
      assert lead[0] in lead && (lead + text)[1..] == lead[1..] + text;
      LeadingSpace(lead + text);
      LeadIrrelevant(lead[1..], text);
    }
  }

  lemma {:induction false} TailIrrelevant(text: string, tail: string)
    requires NoneAlnum(tail)
    ensures StripUnderscores(SubstituteRuns(text + tail)) == StripUnderscores(SubstituteRuns(text))
    decreases |tail|
  {
    if tail == [] {
      assert text + tail == text;
    } else {
      var last := |tail| - 1;
      assert tail[last] in tail && (text + tail)[..|text + tail| - 1] == text + tail[..last];
      TrailingSpace(text + tail);
      TailIrrelevant(text, tail[..last]);
    }
  }

  /**
   The importer takes the whole upper-cased name, the sync job the same without white space around
   it. They agree exactly when no character but an ASCII letter or digit counts as one.
   */
  lemma SlugsAgreeExactly(letters: set<char>, lead: string, text: string, tail: string)
    requires AreLetters(letters)
    requires forall c | c in lead + tail :: !IsAlnum(c) && c !in letters
    ensures StripUnderscores(SubstituteRuns(text)) == SlugIn(letters, lead + text + tail) <==> forall c | c in text :: c !in letters
  {
    var whole := lead + text + tail;
    if forall c | c in text :: c !in letters {
      MappedPlain(letters, whole);
      RunsCollapse(whole);
      TailIrrelevant(lead + text, tail);
      LeadIrrelevant(lead, text);
    } else {
      var c :| c in text && c in letters;
      SlugInKeeps(letters, whole, c);
      RegexKeepsAscii(text, c);
    }
  }

  // ----- Idempotence -----

  /** A code as both algorithms leave it. */
  predicate Clean(s: string) {
    && (forall i | 0 <= i < |s| :: s[i] == '_' || (IsAlnum(s[i]) && !IsLower(s[i])))
    && !HasPair(s)
    && (s != [] ==> s[0] != '_' && s[|s| - 1] != '_')
  }

  lemma CleanIsFixed(s: string)
    requires Clean(s)
    ensures Slug(s) == s
  {
    assert Upper(s) == s;
    assert Mapped(s) == s;
    CollapsedAlready(s);
  }

  predicate Legible(s: string) {
    forall i | 0 <= i < |s| :: s[i] == '_' || (IsAlnum(s[i]) && !IsLower(s[i]))
  }

  lemma {:induction false} CollapseHasNoPair(s: string)
    ensures !HasPair(Collapse(s))
    ensures s != [] ==> Collapse(s) != [] && Collapse(s)[0] == s[0]
    ensures Legible(s) ==> Legible(Collapse(s))
    decreases |s|
  {
    if |s| >= 2 {
      CollapseHasNoPair(s[1..]);
      if !(s[0] == '_' && s[1] == '_') {
        var r := Collapse(s[1..]);
        forall i | 0 <= i < |[s[0]] + r| - 1
          ensures !PairAt([s[0]] + r, i)
        {
          if i > 0 {
            assert !PairAt(r, i - 1);
          }
        }
      }
    }
  }

  lemma {:induction false} LeadKeeps(s: string)
    requires !HasPair(s) && Legible(s)
    ensures !HasPair(Lead(s)) && Legible(Lead(s)) && (Lead(s) != [] ==> Lead(s)[0] != '_')
    decreases |s|
  {
    if s != [] && s[0] == '_' {
      forall i | 0 <= i < |s[1..]| - 1
        ensures !PairAt(s[1..], i)
      {
        assert !PairAt(s, i + 1);
      }
      LeadKeeps(s[1..]);
    }
  }

  lemma {:induction false} TrailKeeps(s: string)
    requires !HasPair(s) && Legible(s) && (s != [] ==> s[0] != '_')
    ensures Clean(Trail(s))
    decreases |s|
  {
    if s != [] && s[|s| - 1] == '_' {
      var t := s[..|s| - 1];
      forall i | 0 <= i < |t| - 1
        ensures !PairAt(t, i)
      {
        assert !PairAt(s, i);
      }
      TrailKeeps(t);
    }
  }

  /** A code of a code is that code. */
  lemma SlugIsIdempotent(name: string)
    ensures Clean(Slug(name)) && Slug(Slug(name)) == Slug(name)
  {
    var mapped := Mapped(Upper(name));
    assert Legible(mapped);
    CollapseHasNoPair(mapped);
    LeadKeeps(Collapse(mapped));
    TrailKeeps(Lead(Collapse(mapped)));
    CleanIsFixed(Slug(name));
  }

  // ----- The collision suffix -----

  function Digit(n: nat): char
    requires n < 10
  {
    ('0' as int + n) as char
  }

  function Decimal(n: nat): string {
    if n < 10 then [Digit(n)] else Decimal(n / 10) + [Digit(n % 10)]
  }

  function Reading(s: string): int {
    if s == [] then 0 else 10 * Reading(s[..|s| - 1]) + (s[|s| - 1] as int - '0' as int)
  }

  lemma {:induction false} DecimalReads(n: nat)
    ensures Reading(Decimal(n)) == n
    decreases n
  {
    if n >= 10 {
      DecimalReads(n / 10);
      assert Decimal(n)[..|Decimal(n)| - 1] == Decimal(n / 10);
    } else {
      assert Decimal(n)[..0] == [];
    }
  }

  /** Decimal digits without a leading zero. */
  lemma {:induction false} DecimalIsPlain(n: nat)
    requires n > 0
    ensures Decimal(n) != [] && Decimal(n)[0] != '0'
    ensures forall i | 0 <= i < |Decimal(n)| :: '0' <= Decimal(n)[i] <= '9'
    decreases n
  {
    if n >= 10 {
      DecimalIsPlain(n / 10);
    }
  }

  /** The first candidate is the base itself, the n-th after that carries the suffix n. */
  function Candidate(base: string, n: nat): string {
    if n < 2 then base else base + "_" + Decimal(n)
  }

  lemma CandidatesDiffer(base: string, m: nat, n: nat)
    requires 1 <= m < n
    ensures Candidate(base, m) != Candidate(base, n)
  {
    DecimalReads(m);
    DecimalReads(n);
    var prefix := base + "_";
    assert (prefix + Decimal(n))[|prefix|..] == Decimal(n);
    if m >= 2 {
      assert (prefix + Decimal(m))[|prefix|..] == Decimal(m);
    } else {
      assert |Candidate(base, n)| > |base|;
    }
  }

  function Candidates(base: string, n: nat): set<string> {
    if n == 0 then {} else Candidates(base, n - 1) + {Candidate(base, n)}
  }

  lemma {:induction false} CandidateOf(base: string, n: nat, c: string) returns (m: nat)
    requires c in Candidates(base, n)
    ensures 1 <= m <= n && Candidate(base, m) == c
    decreases n
  {
    m := n;
    if c != Candidate(base, n) {
      m := CandidateOf(base, n - 1, c);
    }
  }

  lemma {:induction false} CandidatesCount(base: string, n: nat)
    ensures |Candidates(base, n)| == n
    decreases n
  {
    if n > 0 {
      CandidatesCount(base, n - 1);
      if Candidate(base, n) in Candidates(base, n - 1) {
        var m := CandidateOf(base, n - 1, Candidate(base, n));
        CandidatesDiffer(base, m, n);
      }
    }
  }

  function BaseCode(name: string): string {
    if RegexSlug(name) == [] then "MARKET" else RegexSlug(name)
  }

  /** The first candidate no existing code has taken: the search ends because finitely many are taken. */
  method GenerateCode(name: string, existing: set<string>) returns (code: string, ghost n: nat)
    ensures 1 <= n && code == Candidate(BaseCode(name), n) && code !in existing
    ensures forall m: nat | 1 <= m < n :: Candidate(BaseCode(name), m) in existing
    ensures var base := if RegexSlug(name) == [] then "MARKET" else RegexSlug(name);
            if base !in existing then code == base
            else exists suffix: string ::
                   && code == base + "_" + suffix && Reading(suffix) == n && n >= 2 && suffix != [] && suffix[0] != '0'
                   && forall i | 0 <= i < |suffix| :: '0' <= suffix[i] <= '9'
  {
    var base := BaseCode(name);
    code := base;
    var next := 2;
    n := 1;
    while code in existing
      invariant next == n + 1 && code == Candidate(base, n)
      invariant 1 <= n <= |existing| + 1
      invariant forall m: nat | 1 <= m < n :: Candidate(base, m) in existing
      decreases |existing| + 1 - n
    {
      TakenAtMost(base, existing, n);
      n := next;
      code := base + "_" + Decimal(next);
      next := next + 1;
    }
    SuffixReads(base, n);
  }

  lemma SuffixReads(base: string, n: nat)
    requires n >= 1
    ensures n == 1 ==> Candidate(base, n) == base
    ensures n >= 2 ==>
              && Candidate(base, n) == base + "_" + Decimal(n) && Reading(Decimal(n)) == n
              && Decimal(n) != [] && Decimal(n)[0] != '0' && forall i | 0 <= i < |Decimal(n)| :: '0' <= Decimal(n)[i] <= '9'
  {
    DecimalReads(n);
    DecimalIsPlain(n);
  }

  lemma TakenAtMost(base: string, existing: set<string>, n: nat)
    requires forall m: nat | 1 <= m <= n :: Candidate(base, m) in existing
    ensures n <= |existing|
  {
    CandidatesCount(base, n);
    forall c | c in Candidates(base, n)
      ensures c in existing
    {
      var m := CandidateOf(base, n, c);
    }
    SubsetSize(Candidates(base, n), existing);
  }
}
