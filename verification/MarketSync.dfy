/** Keeping the local market table aligned with the names the engine reports. */
module MarketSync {
  import opened Slugs

  datatype Market = Market(code: string, name: string, active: bool, flagged: bool)

  datatype Report = Report(created: set<string>, flagged: set<string>, unflagged: set<string>)

  function Names(markets: seq<Market>): set<string> {
    set i | 0 <= i < |markets| :: markets[i].name
  }

  function Codes(markets: seq<Market>): set<string> {
    set i | 0 <= i < |markets| :: markets[i].code
  }

  ghost predicate UniqueNames(markets: seq<Market>) {
    forall i, j | 0 <= i < j < |markets| :: markets[i].name != markets[j].name
  }

  ghost predicate UniqueCodes(markets: seq<Market>) {
    forall i, j | 0 <= i < j < |markets| :: markets[i].code != markets[j].code
  }

  ghost predicate WellFormed(markets: seq<Market>) {
    UniqueNames(markets) && UniqueCodes(markets)
  }

  /** The names reported, trimmed; blanks are dropped. */
  function EngineNames(reported: seq<string>): set<string> {
    set i | 0 <= i < |reported| && Trim(reported[i]) != [] :: Trim(reported[i])
  }

  /** A name counts when some reported string is that name but for white space around it. */
  lemma EngineNamesMean(reported: seq<string>, name: string)
    ensures name in EngineNames(reported) <==>
            && name != [] && Trimmed(name)
            && exists i, lead, tail ::
                 0 <= i < |reported| && reported[i] == lead + name + tail && Blank(lead) && Blank(tail)
  {
    hide Trim, Trimmed, Blank;
    if name in EngineNames(reported) {
      var i :| 0 <= i < |reported| && Trim(reported[i]) == name;
      var lead, tail := TrimMeans(reported[i]);
      assert reported[i] == lead + name + tail;
    }
    if i, lead, tail :|
      && 0 <= i < |reported| && reported[i] == lead + name + tail && Blank(lead) && Blank(tail)
      && name != [] && Trimmed(name)
    {
      TrimOf(lead, name, tail);
      assert Trim(reported[i]) == name;
    }
  }

  ghost predicate CodeFits(m: Market) {
    exists n: nat :: n >= 1 && m.code == Candidate(BaseCode(m.name), n)
  }

  // ----- Sorted names -----

  /** Strings in dictionary order of their characters. */
  predicate Before(a: string, b: string) {
    b != [] && (a == [] || a[0] < b[0] || (a[0] == b[0] && Before(a[1..], b[1..])))
  }

  lemma {:induction false} BeforeIsTotal(a: string, b: string)
    ensures a == b || Before(a, b) || Before(b, a)
    ensures !Before(a, a) && !(Before(a, b) && Before(b, a))
    decreases |a|
  {
    if a != [] {
      BeforeIsTotal(a[1..], if b == [] then [] else b[1..]);
      if b != [] && a[0] == b[0] && a[1..] == b[1..] {
        assert a == [a[0]] + a[1..] && b == [b[0]] + b[1..];
      }
    }
  }

  lemma {:induction false} BeforeIsTransitive(a: string, b: string, c: string)
    requires Before(a, b) && Before(b, c)
    ensures Before(a, c)
    decreases |a|
  {
    if a != [] && a[0] == b[0] && b[0] == c[0] {
      BeforeIsTransitive(a[1..], b[1..], c[1..]);
    }
  }

  /** The order of a dictionary: at the first difference the smaller character, or the end, comes first. */
  lemma {:induction false} BeforeMeans(a: string, b: string)
    ensures Before(a, b) <==>
            exists k: nat :: k <= |a| && k < |b| && a[..k] == b[..k] && (k == |a| || a[k] < b[k])
    decreases |a|
  {
    if b != [] && (a == [] || a[0] < b[0]) {
      assert a[..0] == b[..0];
    } else if b != [] && a[0] == b[0] {
      BeforeMeans(a[1..], b[1..]);
      if Before(a, b) {
        var k: nat :| k <= |a[1..]| && k < |b[1..]| && a[1..][..k] == b[1..][..k] && (k == |a[1..]| || a[1..][k] < b[1..][k]);
        assert a[..k + 1] == [a[0]] + a[1..][..k] && b[..k + 1] == [b[0]] + b[1..][..k];
      }
      if k: nat :| k <= |a| && k < |b| && a[..k] == b[..k] && (k == |a| || a[k] < b[k]) {
        assert k > 0;
        assert a[1..][..k - 1] == a[..k][1..] && b[1..][..k - 1] == b[..k][1..];
      }
    } else if b != [] {
      assert forall k: nat | 0 < k <= |a| && k < |b| && a[..k] == b[..k] :: a[..k][0] == b[..k][0];
    }
  }

  /** The name that sorts first. */
  method LeastName(names: set<string>) returns (least: string)
    requires names != {}
    ensures least in names && forall x | x in names && x != least :: Before(least, x)
  {
    least :| least in names;
    var todo := names - {least};
    while todo != {}
      invariant todo <= names && least in names - todo
      invariant forall x | x in names - todo && x != least :: Before(least, x)
      decreases |todo|
    {
      var x :| x in todo;
      BeforeIsTotal(least, x);
      if Before(x, least) {
        forall y | y in names - todo && y != least
          ensures Before(x, y)
        {
          BeforeIsTransitive(x, least, y);
        }
        least := x;
      }
      todo := todo - {x};
    }
  }

  /** The first candidate for the name that none of the codes taken has. */
  ghost predicate FirstFree(code: string, name: string, taken: set<string>) {
    exists n: nat :: n >= 1 && code == Candidate(BaseCode(name), n) && code !in taken &&
                     forall m: nat | 1 <= m < n :: Candidate(BaseCode(name), m) in taken
  }

  /** New rows come in the order of their names, each with the first code that the rows above leave free. */
  ghost predicate Sorted(kept: seq<Market>, now: seq<Market>) {
    && |kept| <= |now|
    && (forall i, j | |kept| <= i < j < |now| :: Before(now[i].name, now[j].name))
    && (forall i | |kept| <= i < |now| :: FirstFree(now[i].code, now[i].name, Codes(now[..i])))
  }

  lemma SortedFlags(kept: seq<Market>, now: seq<Market>, next: seq<Market>)
    requires Sorted(kept, now) && |next| == |now|
    requires forall i | 0 <= i < |now| :: next[i].name == now[i].name && next[i].code == now[i].code
    ensures Sorted(kept, next)
  {
    forall i | |kept| <= i < |next|
      ensures FirstFree(next[i].code, next[i].name, Codes(next[..i]))
    {
      SameNames(now[..i], next[..i]);
      assert FirstFree(now[i].code, now[i].name, Codes(now[..i]));
    }
  }

  lemma SortedNew(kept: seq<Market>, now: seq<Market>, m: Market)
    requires Sorted(kept, now) && FirstFree(m.code, m.name, Codes(now))
    requires forall i | |kept| <= i < |now| :: Before(now[i].name, m.name)
    ensures Sorted(kept, now + [m])
  {
    var after := now + [m];
    forall i | |kept| <= i < |after|
      ensures FirstFree(after[i].code, after[i].name, Codes(after[..i]))
    {
      if i < |now| {
        assert after[..i] == now[..i];
        assert FirstFree(now[i].code, now[i].name, Codes(now[..i]));
      } else {
        assert after[..i] == now;
      }
    }
  }

  /** What one successful sync does to the table. */
  ghost predicate Synced(before: seq<Market>, engine: set<string>, after: seq<Market>, report: Report) {
    && |before| <= |after| && WellFormed(after) && Sorted(before, after)
    && (forall i | 0 <= i < |before| :: after[i] == before[i].(flagged := before[i].name !in engine))
    && (forall i | |before| <= i < |after| ::
          after[i].name in engine && after[i].active && !after[i].flagged && CodeFits(after[i]))
    && Names(after) == Names(before) + engine
    && report.created == engine - Names(before)
    && report.flagged == (set i | 0 <= i < |before| && before[i].name !in engine && !before[i].flagged :: before[i].name)
    && report.unflagged == (set i | 0 <= i < |before| && before[i].name in engine && before[i].flagged :: before[i].name)
  }

  function Find(markets: seq<Market>, name: string): (i: int)
    ensures i == -1 ==> name !in Names(markets)
    ensures i != -1 ==> 0 <= i < |markets| && markets[i].name == name
  {
    if markets == [] then -1
    else if markets[|markets| - 1].name == name then |markets| - 1
    else
      assert forall j | 0 <= j < |markets| - 1 :: markets[..|markets| - 1][j] == markets[j];
      Find(markets[..|markets| - 1], name)
  }

  class MarketTable {
    var markets: seq<Market>

    ghost predicate Valid()
      reads this
    {
      WellFormed(markets)
    }

    constructor (markets: seq<Market>)
      requires WellFormed(markets)
      ensures Valid() && this.markets == markets
    {
      this.markets := markets;
    }

    method ApplyMarketSync(reported: seq<string>) returns (report: Report)
      requires Valid()
      modifies this
      ensures Valid() && Synced(old(markets), EngineNames(reported), markets, report)
    {
      ghost var before := markets;
      var n := |markets|;
      var engine := EngineNames(reported);
      var created, unflagged := CreateMissing(engine);
      ghost var mid := markets;
      var flagged := FlagAbsent(engine, n);
      SortedFlags(before, mid, markets);
      report := Report(created, flagged, unflagged);
      SyncedFrom(before, engine, mid, markets, report);
    }

    /** First loop, in the order of the names: each is either unflagged where it stands, or created with a fresh code. */
    method CreateMissing(engine: set<string>) returns (created: set<string>, unflagged: set<string>)
      requires Valid()
      modifies this
      ensures Valid() && Created(old(markets), engine, markets, created, unflagged) && Sorted(old(markets), markets)
    {
      var local := markets;
      var existing := Codes(local);
      created, unflagged := {}, {};
      var todo := engine;
      assert engine - todo == {};
      NothingCreated(local);
      hide Created, Sorted, Before, WellFormed, Codes, AllBefore, EngineNames;
      while todo != {}
        invariant todo <= engine && existing == Codes(markets) && Valid() && |local| <= |markets|
        invariant Created(local, engine - todo, markets, created, unflagged)
        invariant Sorted(local, markets)
        invariant AllBefore(markets[|local|..], todo)
        decreases |todo|
      {
        var name := LeastName(todo);
        assert engine - (todo - {name}) == (engine - todo) + {name};
        ghost var earlier := markets;
        OneBefore(markets[|local|..], todo, name);
        var isNew, isUnflagged := Treat(name, local, existing, engine - todo, created, unflagged);
        existing := Codes(markets);
        created := if isNew then created + {name} else created;
        unflagged := if isUnflagged then unflagged + {name} else unflagged;
        StillBefore(earlier, markets, |local|, todo, name);
        todo := todo - {name};
      }
      assert engine - todo == engine;
    }

    /** The body of that loop: `local` is the table it began with. */
    method Treat(name: string, local: seq<Market>, existing: set<string>, ghost done: set<string>, ghost created: set<string>,
                 ghost unflagged: set<string>)
      returns (isNew: bool, isUnflagged: bool)
      requires WellFormed(local) && Valid() && existing == Codes(markets)
      requires Created(local, done, markets, created, unflagged) && Sorted(local, markets) && name !in done
      requires AllBefore(markets[|local|..], {name})
      modifies this
      ensures Valid() && Sorted(local, markets) && |local| <= |markets|
      ensures Created(local, done + {name}, markets, if isNew then created + {name} else created,
                      if isUnflagged then unflagged + {name} else unflagged)
      ensures forall i | |local| <= i < |markets| ::
                markets[i].name == name || (i < |old(markets)| && markets[i].name == old(markets)[i].name)
    {
      isNew, isUnflagged := false, false;
      LastAreBefore(local, markets, name);
      hide FirstFree, Before, CodeFits, Created, Sorted, WellFormed;
      var i := Find(local, name);
      if i != -1 {
        TreatPresent(local, done, markets, created, unflagged, i);
        if local[i].flagged {
          markets, isUnflagged := markets[i := markets[i].(flagged := false)], true;
        }
      } else {
        var code, n := GenerateCode(name, existing);
        var row := Market(code, name, true, false);
        TreatMissing(local, done, markets, created, unflagged, row, n);
        markets, isNew := markets + [row], true;
      }
    }

    /** Second loop: what was here before and is no longer reported is flagged, never removed. */
    method FlagAbsent(engine: set<string>, n: nat) returns (flagged: set<string>)
      requires n <= |markets|
      modifies this
      ensures |markets| == |old(markets)|
      ensures forall i | 0 <= i < |markets| ::
                markets[i] == if i < n && old(markets)[i].name !in engine then old(markets)[i].(flagged := true) else old(markets)[i]
      ensures flagged == set i | 0 <= i < n && old(markets)[i].name !in engine && !old(markets)[i].flagged :: old(markets)[i].name
    {
      flagged := {};
      for i := 0 to n
        invariant |markets| == |old(markets)|
        invariant forall j | 0 <= j < |markets| ::
                    markets[j] == if j < i && old(markets)[j].name !in engine then old(markets)[j].(flagged := true)
                                  else old(markets)[j]
        invariant flagged == set j | 0 <= j < i && old(markets)[j].name !in engine && !old(markets)[j].flagged :: old(markets)[j].name
      {
        if markets[i].name !in engine && !markets[i].flagged {
          flagged := flagged + {markets[i].name};
          markets := markets[i := markets[i].(flagged := true)];
        }
      }
    }
  }

  /** The table after the first loop has treated the names in `done`. */
  ghost predicate Created(before: seq<Market>, done: set<string>, now: seq<Market>, created: set<string>, unflagged: set<string>) {
    && |before| <= |now|
    && (forall i | 0 <= i < |before| :: now[i] == if before[i].name in done then before[i].(flagged := false) else before[i])
    && (forall i | |before| <= i < |now| ::
          now[i].name in done && now[i].name !in Names(before) && now[i].active && !now[i].flagged && CodeFits(now[i]))
    && Names(now) == Names(before) + done
    && created == done - Names(before)
    && unflagged == (set i | 0 <= i < |before| && before[i].name in done && before[i].flagged :: before[i].name)
  }

  lemma SyncedFrom(before: seq<Market>, engine: set<string>, mid: seq<Market>, after: seq<Market>, report: Report)
    requires Created(before, engine, mid, report.created, report.unflagged) && WellFormed(mid) && |after| == |mid|
    requires forall i | 0 <= i < |mid| ::
               after[i] == if i < |before| && mid[i].name !in engine then mid[i].(flagged := true) else mid[i]
    requires report.flagged == set i | 0 <= i < |before| && mid[i].name !in engine && !mid[i].flagged :: mid[i].name
    requires Sorted(before, after)
    ensures Synced(before, engine, after, report)
  {
    SameNames(mid, after);
    assert WellFormed(after);
    assert forall i | 0 <= i < |before| :: after[i] == before[i].(flagged := before[i].name !in engine);
    assert report.flagged == set i | 0 <= i < |before| && before[i].name !in engine && !before[i].flagged :: before[i].name;
  }

  lemma SameNames(markets: seq<Market>, after: seq<Market>)
    requires |after| == |markets|
    requires forall i | 0 <= i < |markets| :: after[i].name == markets[i].name && after[i].code == markets[i].code
    ensures Names(after) == Names(markets) && Codes(after) == Codes(markets)
    ensures WellFormed(markets) ==> WellFormed(after)
  {
    forall x
      ensures x in Names(after) <==> x in Names(markets)
    {
      if i :| 0 <= i < |markets| && markets[i].name == x {
        assert after[i].name == x;
      }
      if i :| 0 <= i < |after| && after[i].name == x {
        assert markets[i].name == x;
      }
    }
    forall x
      ensures x in Codes(after) <==> x in Codes(markets)
    {
      if i :| 0 <= i < |markets| && markets[i].code == x {
        assert after[i].code == x;
      }
      if i :| 0 <= i < |after| && after[i].code == x {
        assert markets[i].code == x;
      }
    }
  }

  lemma NamesAppend(markets: seq<Market>, m: Market)
    ensures Names(markets + [m]) == Names(markets) + {m.name}
    ensures Codes(markets + [m]) == Codes(markets) + {m.code}
    ensures WellFormed(markets) && m.name !in Names(markets) && m.code !in Codes(markets) ==> WellFormed(markets + [m])
  {
    var after := markets + [m];
    assert after[|markets|] == m;
    forall x
      ensures x in Names(after) <==> x in Names(markets) || x == m.name
      ensures x in Codes(after) <==> x in Codes(markets) || x == m.code
    {
      if i :| 0 <= i < |markets| && markets[i].name == x {
        assert after[i].name == x;
      }
      if i :| 0 <= i < |markets| && markets[i].code == x {
        assert after[i].code == x;
      }
    }
  }

  lemma CreatedPresent(before: seq<Market>, done: set<string>, now: seq<Market>, created: set<string>, unflagged: set<string>,
                       i: nat, next: seq<Market>)
    requires Created(before, done, now, created, unflagged) && UniqueNames(before)
    requires i < |before| && before[i].name !in done
    requires next == if before[i].flagged then now[i := now[i].(flagged := false)] else now
    ensures var name := before[i].name;
            Created(before, done + {name}, next, created, if before[i].flagged then unflagged + {name} else unflagged)
    ensures WellFormed(now) ==> WellFormed(next)
    ensures Codes(next) == Codes(now)
  {
    var name := before[i].name;
    SameNames(now, next);
    assert name in Names(before);
    forall j | 0 <= j < |before|
      ensures next[j] == if before[j].name in done + {name} then before[j].(flagged := false) else before[j]
    {
      assert j != i ==> before[j].name != name;
    }
    UnflaggedOneMore(before, done, i);
  }

  lemma UnflaggedOneMore(before: seq<Market>, done: set<string>, i: nat)
    requires i < |before|
    ensures var name := before[i].name;
            (set j | 0 <= j < |before| && before[j].name in done + {name} && before[j].flagged :: before[j].name) ==
            (set j | 0 <= j < |before| && before[j].name in done && before[j].flagged :: before[j].name) +
            (set j | 0 <= j < |before| && before[j].name == name && before[j].flagged :: before[j].name)
  {
  }

  lemma CreatedNew(before: seq<Market>, done: set<string>, now: seq<Market>, created: set<string>, unflagged: set<string>,
                   m: Market)
    requires Created(before, done, now, created, unflagged) && WellFormed(now)
    requires m.name !in Names(before) && m.name !in done && m.active && !m.flagged && CodeFits(m) && m.code !in Codes(now)
    ensures Created(before, done + {m.name}, now + [m], created + {m.name}, unflagged) && WellFormed(now + [m])
  {
    NamesAppend(now, m);
    forall j | 0 <= j < |before|
      ensures before[j].name != m.name
    {
      assert before[j].name in Names(before);
    }
    assert unflagged ==
      set j | 0 <= j < |before| && before[j].name in done + {m.name} && before[j].flagged :: before[j].name;
  }

  lemma LastAreBefore(before: seq<Market>, now: seq<Market>, name: string)
    requires |before| <= |now| && AllBefore(now[|before|..], {name})
    ensures forall i | |before| <= i < |now| :: Before(now[i].name, name)
  {
    assert forall i | |before| <= i < |now| :: now[|before|..][i - |before|] == now[i];
    hide Before;
  }

  /** A reported row that is there is unflagged where it stands. */
  lemma TreatPresent(before: seq<Market>, done: set<string>, now: seq<Market>, created: set<string>, unflagged: set<string>,
                     i: nat)
    requires WellFormed(before) && WellFormed(now) && Created(before, done, now, created, unflagged) && Sorted(before, now)
    requires i < |before| && before[i].name !in done
    ensures i < |now| &&
            var next := if before[i].flagged then now[i := now[i].(flagged := false)] else now;
            && |before| <= |next| == |now| && WellFormed(next) && Sorted(before, next)
            && Created(before, done + {before[i].name}, next, created,
                       if before[i].flagged then unflagged + {before[i].name} else unflagged)
            && forall k | |before| <= k < |next| :: next[k] == now[k]
  {
    var next := if before[i].flagged then now[i := now[i].(flagged := false)] else now;
    CreatedPresent(before, done, now, created, unflagged, i, next);
    SortedFlags(before, now, next);
    hide WellFormed, FirstFree, Before, CodeFits, Names;
  }

  /** One that is missing is created with the first free code. */
  lemma TreatMissing(before: seq<Market>, done: set<string>, now: seq<Market>, created: set<string>, unflagged: set<string>,
                     m: Market, n: nat)
    requires WellFormed(now) && Created(before, done, now, created, unflagged) && Sorted(before, now)
    requires m.name !in Names(before) && m.name !in done && m.active && !m.flagged
    requires n >= 1 && m.code == Candidate(BaseCode(m.name), n) && m.code !in Codes(now)
    requires forall k: nat | 1 <= k < n :: Candidate(BaseCode(m.name), k) in Codes(now)
    requires forall k | |before| <= k < |now| :: Before(now[k].name, m.name)
    ensures WellFormed(now + [m]) && Sorted(before, now + [m]) && |before| <= |now + [m]|
    ensures Created(before, done + {m.name}, now + [m], created + {m.name}, unflagged)
  {
    FreshCode(m, n, Codes(now));
    CreatedNew(before, done, now, created, unflagged, m);
    SortedNew(before, now, m);
    hide WellFormed, FirstFree, Before, CodeFits, Names, Codes, Created;
  }

  ghost predicate AllBefore(rows: seq<Market>, names: set<string>) {
    forall i, x | 0 <= i < |rows| && x in names :: Before(rows[i].name, x)
  }

  lemma OneBefore(rows: seq<Market>, names: set<string>, name: string)
    requires AllBefore(rows, names) && name in names
    ensures AllBefore(rows, {name})
  {
  }

  lemma StillBefore(earlier: seq<Market>, now: seq<Market>, n: nat, todo: set<string>, name: string)
    requires n <= |earlier| && n <= |now| && AllBefore(earlier[n..], todo)
    requires forall x | x in todo && x != name :: Before(name, x)
    requires forall i | n <= i < |now| :: now[i].name == name || (i < |earlier| && now[i].name == earlier[i].name)
    ensures AllBefore(now[n..], todo - {name})
  {
    hide Before;
    forall i, x | 0 <= i < |now[n..]| && x in todo - {name}
      ensures Before(now[n..][i].name, x)
    {
      assert now[n..][i] == now[i + n];
      if now[i + n].name != name {
        assert earlier[n..][i] == earlier[i + n];
      }
    }
  }

  lemma FreshCode(m: Market, n: nat, existing: set<string>)
    requires n >= 1 && m.code == Candidate(BaseCode(m.name), n) && m.code !in existing
    requires forall k: nat | 1 <= k < n :: Candidate(BaseCode(m.name), k) in existing
    ensures CodeFits(m) && FirstFree(m.code, m.name, existing)
  {
  }

  lemma NothingCreated(before: seq<Market>)
    ensures Created(before, {}, before, {}, {})
  {
  }

  // ----- One result -----

  lemma FirstFreeIsOne(code: string, other: string, name: string, taken: set<string>)
    requires FirstFree(code, name, taken) && FirstFree(other, name, taken)
    ensures code == other
  {
    var n: nat :| n >= 1 && code == Candidate(BaseCode(name), n) && code !in taken &&
                  forall m: nat | 1 <= m < n :: Candidate(BaseCode(name), m) in taken;
    var k: nat :| k >= 1 && other == Candidate(BaseCode(name), k) && other !in taken &&
                  forall m: nat | 1 <= m < k :: Candidate(BaseCode(name), m) in taken;
    assert n == k;
  }

  /** What a result is made of beyond the earlier rows: sorted new rows, active and unflagged, no name twice. */
  ghost predicate Extends(before: seq<Market>, after: seq<Market>) {
    && Sorted(before, after) && UniqueNames(after)
    && forall i | |before| <= i < |after| :: after[i].active && !after[i].flagged
  }

  /** The name of row `i` of one result is found at or below row `i` of another with the same names. */
  lemma LaterElsewhere(before: seq<Market>, a: seq<Market>, b: seq<Market>, i: nat) returns (j: nat)
    requires Extends(before, a) && Extends(before, b) && Names(a) == Names(b)
    requires |before| <= i < |a| && i <= |b| && a[..i] == b[..i]
    ensures i <= j < |b| && b[j].name == a[i].name
  {
    hide Sorted, FirstFree;
    assert a[i].name in Names(a);
    assert a[i].name in Names(b);
    j :| 0 <= j < |b| && b[j].name == a[i].name;
    PrefixRow(a, b, i, j);
  }

  lemma PrefixRow(a: seq<Market>, b: seq<Market>, i: nat, j: nat)
    requires i <= |a| && i <= |b| && a[..i] == b[..i]
    ensures j < i ==> a[j] == b[j]
  {
    if j < i {
      assert a[..i][j] == b[..i][j];
    }
  }

  /** Where two results agree above a row, they agree on the row: its name is the least one still missing. */
  lemma SameRow(before: seq<Market>, a: seq<Market>, b: seq<Market>, i: nat)
    requires Extends(before, a) && Extends(before, b) && Names(a) == Names(b)
    requires |before| <= i < |a| && i <= |b| && a[..i] == b[..i]
    ensures i < |b| && a[i] == b[i]
  {
    hide FirstFree;
    var j := LaterElsewhere(before, a, b, i);
    var k := LaterElsewhere(before, b, a, i);
    BeforeIsTotal(a[i].name, b[i].name);
    SameName(before, a, b, i, j, k);
    FirstFreeIsOne(a[i].code, b[i].code, a[i].name, Codes(a[..i]));
  }

  lemma SameName(before: seq<Market>, a: seq<Market>, b: seq<Market>, i: nat, j: nat, k: nat)
    requires Sorted(before, a) && Sorted(before, b) && |before| <= i < |a| && i <= j < |b| && i <= k < |a|
    requires b[j].name == a[i].name && a[k].name == b[i].name
    ensures a[i].name == b[i].name
  {
    hide FirstFree;
    BeforeIsTotal(a[i].name, b[i].name);
  }

  lemma {:induction false} SameRows(before: seq<Market>, a: seq<Market>, b: seq<Market>, i: nat)
    requires Extends(before, a) && Extends(before, b) && Names(a) == Names(b)
    requires |before| <= i <= |a| && i <= |b| && a[..i] == b[..i]
    ensures a == b
    decreases |a| - i
  {
    hide Extends;
    if i < |a| {
      SameRow(before, a, b, i);
      assert a[..i + 1] == a[..i] + [a[i]] && b[..i + 1] == b[..i] + [b[i]];
      SameRows(before, a, b, i + 1);
    } else if i < |b| {
      SameRow(before, b, a, i);
    } else {
      assert a[..i] == a && b[..i] == b;
    }
  }

  /** A sync has one result: the table and the list decide every row, code and report. */
  lemma SyncIsDetermined(before: seq<Market>, engine: set<string>, a: seq<Market>, ra: Report, b: seq<Market>, rb: Report)
    requires WellFormed(before) && Synced(before, engine, a, ra) && Synced(before, engine, b, rb)
    ensures a == b && ra == rb
  {
    assert a[..|before|] == b[..|before|];
    hide Sorted, UniqueCodes, Names, EngineNames;
    SameRows(before, a, b, |before|);
  }

  // ----- Histories -----

  /** A run of successful syncs: each table follows from the one before by the list received. */
  ghost predicate History(tables: seq<seq<Market>>, lists: seq<set<string>>, reports: seq<Report>) {
    && |tables| == |lists| + 1 && |reports| == |lists|
    && forall k | 0 <= k < |lists| :: Synced(tables[k], lists[k], tables[k + 1], reports[k])
  }

  ghost function EverSeen(lists: seq<set<string>>): set<string> {
    if lists == [] then {} else EverSeen(lists[..|lists| - 1]) + lists[|lists| - 1]
  }

  /**
   Over any history a market is flagged exactly when the last list lacks it, the names are the
   initial ones and all ever seen, no row, code or active flag changes once made, and codes stay distinct.
   */
  lemma {:induction false} SyncConverges(tables: seq<seq<Market>>, lists: seq<set<string>>, reports: seq<Report>)
    requires History(tables, lists, reports) && WellFormed(tables[0])
    ensures var first, last := tables[0], tables[|lists|];
            && WellFormed(last)
            && Names(last) == Names(first) + EverSeen(lists)
            && |first| <= |last|
            && (forall i | 0 <= i < |first| :: last[i].(flagged := first[i].flagged) == first[i])
            && (lists != [] ==> forall i | 0 <= i < |last| :: last[i].flagged <==> last[i].name !in lists[|lists| - 1])
    decreases |lists|
  {
    if lists != [] {
      var n := |lists| - 1;
      SyncConverges(tables[..n + 1], lists[..n], reports[..n]);
      assert Synced(tables[n], lists[n], tables[n + 1], reports[n]);
    }
  }

  /** A row once made, at whatever point of a history, keeps its place, name, code and active flag to the end. */
  lemma {:induction false} RowsAreKept(tables: seq<seq<Market>>, lists: seq<set<string>>, reports: seq<Report>, k: nat)
    requires History(tables, lists, reports) && k <= |lists|
    ensures var made, last := tables[k], tables[|lists|];
            |made| <= |last| && forall i | 0 <= i < |made| :: last[i].(flagged := made[i].flagged) == made[i]
    decreases |lists|
  {
    if k < |lists| {
      var n := |lists| - 1;
      RowsAreKept(tables[..n + 1], lists[..n], reports[..n], k);
      assert Synced(tables[n], lists[n], tables[n + 1], reports[n]);
    }
  }

  /** Receiving the same list again changes nothing and reports nothing. */
  lemma RepeatIsNoOp(before: seq<Market>, engine: set<string>, once: seq<Market>, report: Report,
                     twice: seq<Market>, again: Report)
    requires Synced(before, engine, once, report) && Synced(once, engine, twice, again)
    ensures twice == once && again == Report({}, {}, {})
  {
    forall i | 0 <= i < |once|
      ensures once[i].flagged <==> once[i].name !in engine
    {
    }
    NoLonger(once, engine, twice);
    assert again.created == {};
    assert again.flagged == {};
    assert again.unflagged == {};
  }

  lemma NoLonger(once: seq<Market>, engine: set<string>, twice: seq<Market>)
    requires |once| <= |twice| && UniqueNames(twice) && engine <= Names(once)
    requires forall i | 0 <= i < |once| :: twice[i].name == once[i].name
    requires forall i | |once| <= i < |twice| :: twice[i].name in engine
    ensures |twice| == |once|
  {
    if twice != [] {
      var last := |twice| - 1;
      assert twice[last].name in Names(once);
      var i :| 0 <= i < |once| && once[i].name == twice[last].name;
      assert i == last;
    }
  }
}
