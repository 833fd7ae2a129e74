/** What the ledger holds after any sequence of calls whose days do not go back. */
module LedgerRuns {
  import opened Common
  import opened Ledger

  // ---------- the reference: sums over the calls themselves ----------

  /** Which calls a sum is about. */
  datatype Scope = OnDay(day: int) | OfPeer(day: int, peer: string) | OfConnection(day: int, connection: string)

  /** A call that spent or used something; one without a named peer is the user's own. */
  predicate Counts(r: Rec, s: Scope) {
    && (r.usd > 0 || r.tokens > 0) && r.day == s.day
    && (s.OfPeer? ==>
          if r.peer.Some? && r.peer.value != "" then s.peer == r.peer.value else s.peer == "__interactive__")
    && (s.OfConnection? ==> r.connection == s.connection)
  }

  datatype Field = Usd | Tokens | TokensIn | TokensOut | Cached | Measured | Discount

  /** What a call brings of a figure: nothing negative but the discount, and nothing of caching unless it was reported. */
  function Share(r: Rec, f: Field): (n: int)
    ensures f != Discount ==> n >= 0
  {
    match f
    case Usd => Max(0, r.usd)
    case Tokens => Max(0, r.tokens)
    case TokensIn => Max(0, r.tokensIn)
    case TokensOut => Max(0, r.tokensOut)
    case Cached => if r.cached.Some? then Max(0, r.cached.value) else 0
    case Measured => if r.cached.Some? then Max(0, r.tokensIn) else 0
    case Discount => r.discount
  }

  function SumOf(recs: seq<Rec>, s: Scope, f: Field): (n: int)
    ensures f != Discount ==> n >= 0
  {
    if recs == [] then 0
    else
      var r := recs[|recs| - 1];
      SumOf(recs[..|recs| - 1], s, f) + if Counts(r, s) then Share(r, f) else 0
  }

  function Total(recs: seq<Rec>, s: Scope): Tally {
    Tally(SumOf(recs, s, Usd), SumOf(recs, s, Tokens), SumOf(recs, s, TokensIn), SumOf(recs, s, TokensOut),
          SumOf(recs, s, Cached), SumOf(recs, s, Measured), SumOf(recs, s, Discount))
  }

  /** The same without the split into input and output. */
  function Unsplit(recs: seq<Rec>, s: Scope): Tally {
    Total(recs, s).(tokensIn := 0, tokensOut := 0)
  }

  predicate Seen(recs: seq<Rec>, s: Scope) {
    recs != [] && (Counts(recs[|recs| - 1], s) || Seen(recs[..|recs| - 1], s))
  }

  lemma TotalSnoc(recs: seq<Rec>, r: Rec, s: Scope)
    ensures Total(recs + [r], s) == if Counts(r, s) then Plus(Total(recs, s), Amount(r)) else Total(recs, s)
    ensures Seen(recs + [r], s) == (Counts(r, s) || Seen(recs, s))
  {
    assert (recs + [r])[..|recs|] == recs;
  }

  lemma {:induction false} UnseenIsZero(recs: seq<Rec>, s: Scope)
    requires !Seen(recs, s)
    ensures Total(recs, s) == ZERO
    decreases |recs|
  {
    if recs != [] { UnseenIsZero(recs[..|recs| - 1], s); }
  }

  // ---------- runs ----------

  function RunFile(recs: seq<Rec>): Option<Data> {
    if recs == [] then None else StepFile(RunFile(recs[..|recs| - 1]), recs[|recs| - 1])
  }

  predicate Chronological(recs: seq<Rec>) {
    forall i, j :: 0 <= i < j < |recs| ==> recs[i].day <= recs[j].day
  }

  ghost predicate NoneAfter(recs: seq<Rec>, day: int) {
    forall s: Scope :: s.day > day ==> !Seen(recs, s)
  }

  // ---------- every bucket is the sum of its calls ----------

  predicate PeerExact(m: map<string, Tally>, recs: seq<Rec>, day: int, p: string) {
    && (p in m <==> Seen(recs, OfPeer(day, p)))
    && (p in m ==> m[p] == Unsplit(recs, OfPeer(day, p)))
  }

  predicate ConnectionExact(m: map<string, Tally>, recs: seq<Rec>, day: int, c: string) {
    && (c in m <==> Seen(recs, OfConnection(day, c)))
    && (c in m ==> m[c] == Total(recs, OfConnection(day, c)))
  }

  ghost predicate DayExact(data: Data, recs: seq<Rec>, d: int) {
    && (d in data.history <==> d >= data.day - 30 && Seen(recs, OnDay(d)))
    && (d in data.history ==>
          && data.history[d].total == Total(recs, OnDay(d))
          && forall c :: ConnectionExact(data.history[d].byConnection, recs, d, c))
  }

  /** The live counters, and every day inside the horizon, are exactly what was recorded. */
  ghost predicate Exact(data: Data, recs: seq<Rec>) {
    && NoneAfter(recs, data.day) && Seen(recs, OnDay(data.day))
    && data.profile == Unsplit(recs, OnDay(data.day))
    && (forall p :: PeerExact(data.byPeer, recs, data.day, p))
    && (forall c :: ConnectionExact(data.byConnection, recs, data.day, c))
    && (forall d :: DayExact(data, recs, d))
  }

  /** What `load` hands to a record on `day`: exact up to the history, with empty live counters on a new day. */
  ghost predicate Ready(data: Data, recs: seq<Rec>) {
    && NoneAfter(recs, data.day)
    && data.profile == Unsplit(recs, OnDay(data.day))
    && (forall p :: PeerExact(data.byPeer, recs, data.day, p))
    && (forall c :: ConnectionExact(data.byConnection, recs, data.day, c))
    && (forall d :: DayExact(data, recs, d))
  }

  lemma BlankReady(recs: seq<Rec>, day: int)
    requires forall s :: !Seen(recs, s)
    ensures Ready(Blank(day), recs)
  {
    UnseenIsZero(recs, OnDay(day));
  }

  /** Rolling over to a later day loses no day inside the horizon. */
  lemma LoadReady(data: Data, recs: seq<Rec>, today: int)
    requires Exact(data, recs) && today >= data.day
    ensures Ready(Loaded(Some(data), today), recs)
  {
    if today > data.day {
      var fresh_ := Rolled(data, today);
      assert DayExact(data, recs, data.day);
      assert Closed(data) == data.history;
      UnseenIsZero(recs, OnDay(today));
      forall p ensures PeerExact(fresh_.byPeer, recs, today, p) {
        assert OfPeer(today, p).day > data.day;
      }
      forall c ensures ConnectionExact(fresh_.byConnection, recs, today, c) {
        assert OfConnection(today, c).day > data.day;
      }
      forall d ensures DayExact(fresh_, recs, d) {
        RolledDay(data, recs, today, d);
      }
    }
  }

  lemma RolledDay(data: Data, recs: seq<Rec>, today: int, d: int)
    requires Exact(data, recs) && today > data.day && Closed(data) == data.history
    ensures DayExact(Rolled(data, today), recs, d)
  {
    assert DayExact(data, recs, d);
  }

  /** A record keeps the file exact. */
  lemma RecordExact(data: Data, recs: seq<Rec>, r: Rec)
    requires Ready(data, recs) && data.day == r.day && !Ignored(r)
    ensures Exact(Recorded(data, r), recs + [r])
  {
    var data' := Recorded(data, r);
    var recs' := recs + [r];
    TotalSnoc(recs, r, OnDay(r.day));
    forall s: Scope | s.day > r.day ensures !Seen(recs', s) {
      TotalSnoc(recs, r, s);
    }
    forall p ensures PeerExact(data'.byPeer, recs', r.day, p) {
      RecordPeer(data, recs, r, p);
    }
    forall c ensures ConnectionExact(data'.byConnection, recs', r.day, c) {
      RecordConnection(data.byConnection, recs, r, c);
    }
    forall d ensures DayExact(data', recs', d) {
      RecordDay(data, recs, r, d);
    }
  }

  lemma RecordPeer(data: Data, recs: seq<Rec>, r: Rec, p: string)
    requires PeerExact(data.byPeer, recs, r.day, p) && !Ignored(r)
    ensures PeerExact(Add(data.byPeer, PeerOf(r), Base(Amount(r))), recs + [r], r.day, p)
  {
    TotalSnoc(recs, r, OfPeer(r.day, p));
    if p !in data.byPeer { UnseenIsZero(recs, OfPeer(r.day, p)); }
  }

  lemma RecordConnection(m: map<string, Tally>, recs: seq<Rec>, r: Rec, c: string)
    requires ConnectionExact(m, recs, r.day, c) && !Ignored(r)
    ensures ConnectionExact(Add(m, r.connection, Amount(r)), recs + [r], r.day, c)
  {
    TotalSnoc(recs, r, OfConnection(r.day, c));
    if c !in m { UnseenIsZero(recs, OfConnection(r.day, c)); }
  }

  lemma OtherDay(data: Data, recs: seq<Rec>, r: Rec, d: int)
    requires DayExact(data, recs, d) && data.day == r.day && d != r.day
    ensures DayExact(Recorded(data, r), recs + [r], d)
  {
    TotalSnoc(recs, r, OnDay(d));
    if d in data.history {
      forall c ensures ConnectionExact(data.history[d].byConnection, recs + [r], d, c) {
        TotalSnoc(recs, r, OfConnection(d, c));
        assert ConnectionExact(data.history[d].byConnection, recs, d, c);
      }
    }
  }

  /** Today's entry: money and tokens copied from the profile, the rest added up beside it. */
  lemma RecordDay(data: Data, recs: seq<Rec>, r: Rec, d: int)
    requires Ready(data, recs) && data.day == r.day && !Ignored(r)
    ensures DayExact(Recorded(data, r), recs + [r], d)
  {
    assert DayExact(data, recs, d);
    if d != r.day {
      OtherDay(data, recs, r, d);
    } else {
      TotalSnoc(recs, r, OnDay(d));
      TodayTotal(data, recs, r);
      forall c ensures ConnectionExact(Recorded(data, r).history[d].byConnection, recs + [r], d, c) {
        TodayConnection(data, recs, r, c);
      }
    }
  }

  lemma TodayTotal(data: Data, recs: seq<Rec>, r: Rec)
    requires Ready(data, recs) && data.day == r.day && !Ignored(r)
    ensures r.day in Recorded(data, r).history
    ensures Recorded(data, r).history[r.day].total == Plus(Total(recs, OnDay(r.day)), Amount(r))
  {
    assert DayExact(data, recs, r.day);
    if r.day !in data.history { UnseenIsZero(recs, OnDay(r.day)); }
  }

  lemma TodayConnection(data: Data, recs: seq<Rec>, r: Rec, c: string)
    requires Ready(data, recs) && data.day == r.day && !Ignored(r)
    ensures r.day in Recorded(data, r).history
    ensures ConnectionExact(Recorded(data, r).history[r.day].byConnection, recs + [r], r.day, c)
  {
    assert DayExact(data, recs, r.day);
    assert ConnectionExact(data.byConnection, recs, r.day, c);
    assert ConnectionExact(data.byConnection, recs, r.day, r.connection);
    RecordConnection(data.byConnection, recs, r, c);
    RecordConnection(data.byConnection, recs, r, r.connection);
    if r.day in data.history {
      assert ConnectionExact(data.history[r.day].byConnection, recs, r.day, c);
      TotalSnoc(recs, r, OfConnection(r.day, c));
    } else {
      NoConnection(recs, r.day, c);
      TotalSnoc(recs, r, OfConnection(r.day, c));
    }
  }

  /** A day without calls has no connection either. */
  lemma {:induction false} NoConnection(recs: seq<Rec>, d: int, c: string)
    requires !Seen(recs, OnDay(d))
    ensures !Seen(recs, OfConnection(d, c))
    decreases |recs|
  {
    if recs != [] { NoConnection(recs[..|recs| - 1], d, c); }
  }

  ghost predicate FileExact(file: Option<Data>, recs: seq<Rec>) {
    match file
    case None => forall s :: !Seen(recs, s)
    case Some(data) => Exact(data, recs)
  }

  lemma {:induction false} SeenIsThere(recs: seq<Rec>, s: Scope) returns (i: nat)
    requires Seen(recs, s)
    ensures i < |recs| && recs[i].day == s.day
    decreases |recs|
  {
    var n := |recs| - 1;
    if Counts(recs[n], s) { i := n; } else { i := SeenIsThere(recs[..n], s); }
  }

  /** After any chronological run every bucket and every day inside the horizon is exact. */
  lemma {:induction false} RunExact(recs: seq<Rec>)
    requires Chronological(recs)
    ensures FileExact(RunFile(recs), recs)
    decreases |recs|
  {
    if recs != [] {
      var n := |recs| - 1;
      var r := recs[n];
      RunExact(recs[..n]);
      assert recs[..n] + [r] == recs;
      if Ignored(r) {
        IgnoredExact(RunFile(recs[..n]), recs[..n], r);
      } else {
        StepExact(RunFile(recs[..n]), recs[..n], r);
      }
    }
  }

  lemma StepExact(file: Option<Data>, recs: seq<Rec>, r: Rec)
    requires FileExact(file, recs) && !Ignored(r) && Chronological(recs + [r])
    ensures FileExact(StepFile(file, r), recs + [r])
  {
    if file.None? {
      BlankReady(recs, r.day);
    } else {
      var i := SeenIsThere(recs, OnDay(file.value.day));
      assert (recs + [r])[i].day <= (recs + [r])[|recs|].day;
      LoadReady(file.value, recs, r.day);
    }
    RecordExact(Loaded(file, r.day), recs, r);
  }

  lemma IgnoredTotals(recs: seq<Rec>, r: Rec, s: Scope)
    requires Ignored(r)
    ensures Total(recs + [r], s) == Total(recs, s) && Seen(recs + [r], s) == Seen(recs, s)
  {
    TotalSnoc(recs, r, s);
  }

  lemma IgnoredExact(file: Option<Data>, recs: seq<Rec>, r: Rec)
    requires FileExact(file, recs) && Ignored(r)
    ensures FileExact(file, recs + [r])
  {
    forall s ensures Total(recs + [r], s) == Total(recs, s) && Seen(recs + [r], s) == Seen(recs, s) {
      IgnoredTotals(recs, r, s);
    }
    if file.Some? {
      var data := file.value;
      forall p ensures PeerExact(data.byPeer, recs + [r], data.day, p) {
        assert PeerExact(data.byPeer, recs, data.day, p);
      }
      forall c ensures ConnectionExact(data.byConnection, recs + [r], data.day, c) {
        assert ConnectionExact(data.byConnection, recs, data.day, c);
      }
      forall d ensures DayExact(data, recs + [r], d) {
        IgnoredDay(data, recs, r, d);
      }
    }
  }

  lemma IgnoredDay(data: Data, recs: seq<Rec>, r: Rec, d: int)
    requires DayExact(data, recs, d) && Ignored(r)
    ensures DayExact(data, recs + [r], d)
  {
    IgnoredTotals(recs, r, OnDay(d));
    if d in data.history {
      forall c ensures ConnectionExact(data.history[d].byConnection, recs + [r], d, c) {
        IgnoredTotals(recs, r, OfConnection(d, c));
        assert ConnectionExact(data.history[d].byConnection, recs, d, c);
      }
    }
  }

  /** Today's history entry agrees with the live counters, down to its copy of the connections. */
  lemma TodayAgrees(recs: seq<Rec>)
    requires Chronological(recs) && RunFile(recs).Some?
    ensures var data := RunFile(recs).value;
            && data.day in data.history
            && data.history[data.day].total.(tokensIn := 0, tokensOut := 0) == data.profile
            && data.history[data.day].byConnection == data.byConnection
  {
    RunExact(recs);
    var data := RunFile(recs).value;
    assert DayExact(data, recs, data.day);
    var copy := data.history[data.day].byConnection;
    forall c ensures c in copy <==> c in data.byConnection {
      assert ConnectionExact(copy, recs, data.day, c) && ConnectionExact(data.byConnection, recs, data.day, c);
    }
    forall c | c in copy ensures copy[c] == data.byConnection[c] {
      assert ConnectionExact(copy, recs, data.day, c) && ConnectionExact(data.byConnection, recs, data.day, c);
    }
  }

  /**
   * A file from before histories gets the day it shows filed when a later day begins, the live counters
   * start over, and days behind the horizon go.
   */
  lemma LegacyDayFiled(data: Data, today: int)
    requires today - 30 <= data.day < today && data.day !in data.history
    requires data.profile.usd > 0 || data.profile.tokens > 0
    ensures var next := Loaded(Some(data), today);
            && next.day == today && next.profile == ZERO && next.byPeer == map[] && next.byConnection == map[]
            && (forall d :: d in next.history <==> d == data.day || (d in data.history && d >= today - 30))
            && next.history[data.day] == Day(data.profile.(tokensIn := 0, tokensOut := 0), data.byConnection)
            && forall d :: d in next.history && d != data.day ==> next.history[d] == data.history[d]
  {
    assert data.day in Closed(data);
  }

  // ---------- conservation ----------

  /** The profile is the sum of its peers, and of its connections. */
  ghost predicate Conserved(data: Data) {
    Sum(data.byPeer) == data.profile && Sum(data.byConnection).(tokensIn := 0, tokensOut := 0) == data.profile
  }

  lemma RecordConserves(data: Data, r: Rec)
    requires Conserved(data)
    ensures Conserved(Recorded(data, r))
  {
    SumAdd(data.byPeer, PeerOf(r), Base(Amount(r)));
    SumAdd(data.byConnection, r.connection, Amount(r));
  }

  /** Whatever the days of the calls, no bucket gains or loses against the others. */
  lemma {:induction false} RunConserves(recs: seq<Rec>)
    ensures RunFile(recs).Some? ==> Conserved(RunFile(recs).value)
    decreases |recs|
  {
    if recs != [] {
      var n := |recs| - 1;
      RunConserves(recs[..n]);
      var before := Loaded(RunFile(recs[..n]), recs[n].day);
      assert Sum(map[]) == ZERO;
      assert Conserved(before);
      RecordConserves(before, recs[n]);
    }
  }

  // ---------- summaries ----------

  /** A figure of the calls from `lo` to `hi`, call by call. */
  function InWindow(recs: seq<Rec>, lo: int, hi: int, f: Field): (n: int)
    ensures f != Discount ==> n >= 0
  {
    if recs == [] then 0
    else
      var r := recs[|recs| - 1];
      InWindow(recs[..|recs| - 1], lo, hi, f) + if (r.usd > 0 || r.tokens > 0) && lo <= r.day <= hi then Share(r, f) else 0
  }

  /** A day whose calls said anything about caching. */
  predicate SaysCache(recs: seq<Rec>, d: int) {
    SumOf(recs, OnDay(d), Measured) > 0 || SumOf(recs, OnDay(d), Cached) > 0 || SumOf(recs, OnDay(d), Discount) != 0
  }

  function DaysSaying(recs: seq<Rec>, lo: int, hi: int): nat
    decreases hi - lo
  {
    if lo > hi then 0 else DaysSaying(recs, lo, hi - 1) + if SaysCache(recs, hi) then 1 else 0
  }

  /** The cache figures of the days from `lo` to `hi`, from the calls themselves. */
  function CallsWindow(recs: seq<Rec>, lo: int, hi: int): Summary {
    Summary(DaysSaying(recs, lo, hi), InWindow(recs, lo, hi, Cached), InWindow(recs, lo, hi, Measured),
            InWindow(recs, lo, hi, Discount))
  }

  /** The first of the `days` days that end with `end`, `end` at the latest. */
  function FirstDay(end: int, days: int): int { if days <= 1 then end else end - (days - 1) }

  lemma {:induction false} WindowDay(recs: seq<Rec>, lo: int, hi: int, f: Field)
    requires lo <= hi
    ensures InWindow(recs, lo, hi, f) == InWindow(recs, lo, hi - 1, f) + SumOf(recs, OnDay(hi), f)
    decreases |recs|
  {
    if recs != [] { WindowDay(recs[..|recs| - 1], lo, hi, f); }
  }

  lemma {:induction false} WindowNone(recs: seq<Rec>, lo: int, hi: int, f: Field)
    requires lo > hi
    ensures InWindow(recs, lo, hi, f) == 0
    decreases |recs|
  {
    if recs != [] { WindowNone(recs[..|recs| - 1], lo, hi, f); }
  }

  /** Day by day, skipping the days that say nothing, comes to the same. */
  lemma DayByDay(recs: seq<Rec>, lo: int, hi: int)
    ensures lo > hi ==> CallsWindow(recs, lo, hi) == NOTHING
    ensures lo <= hi ==> CallsWindow(recs, lo, hi) == Count(CallsWindow(recs, lo, hi - 1), Total(recs, OnDay(hi)))
  {
    if lo > hi {
      WindowNone(recs, lo, hi, Cached);
      WindowNone(recs, lo, hi, Measured);
      WindowNone(recs, lo, hi, Discount);
    } else {
      WindowDay(recs, lo, hi, Cached);
      WindowDay(recs, lo, hi, Measured);
      WindowDay(recs, lo, hi, Discount);
    }
  }

  lemma {:induction false} WindowsAgree(data: Data, recs: seq<Rec>, lo: int, hi: int)
    requires Ready(data, recs) && lo >= data.day - HISTORY_DAYS
    ensures WindowSum(data.history, lo, hi) == CallsWindow(recs, lo, hi)
    decreases hi - lo
  {
    DayByDay(recs, lo, hi);
    if lo <= hi {
      WindowsAgree(data, recs, lo, hi - 1);
      assert DayExact(data, recs, hi);
      if hi !in data.history { UnseenIsZero(recs, OnDay(hi)); }
    }
  }

  /** A summary whose window begins inside the last 31 days counts exactly the calls of its days. */
  lemma SummaryExact(recs: seq<Rec>, clock: int, end: int, days: int)
    requires Chronological(recs) && FirstDay(end, days) >= clock - 30
    requires forall i :: 0 <= i < |recs| ==> recs[i].day <= clock
    ensures WindowSum(Loaded(RunFile(recs), clock).history, FirstDay(end, days), end)
            == CallsWindow(recs, FirstDay(end, days), end)
  {
    SummaryReady(recs, clock);
    WindowsAgree(Loaded(RunFile(recs), clock), recs, FirstDay(end, days), end);
  }

  /** What `cache_summary` answers on a ledger that has seen these calls. */
  method Summarize(ledger: LedgerFile, recs: seq<Rec>, clock: int, today: Option<int>, days: int) returns (out: Summary)
    requires ledger.file == RunFile(recs) && Chronological(recs) && forall i :: 0 <= i < |recs| ==> recs[i].day <= clock
    ensures var end := if today.Some? then today.value else clock;
            FirstDay(end, days) >= clock - 30 ==> out == CallsWindow(recs, FirstDay(end, days), end)
  {
    var end := if today.Some? then today.value else clock;
    out := ledger.CacheSummary(clock, today, days);
    if FirstDay(end, days) >= clock - 30 {
      SummaryExact(recs, clock, end, days);
    }
  }

  // ---------- windows longer than the horizon ----------

  lemma {:induction false} WindowAbsent(history: map<int, Day>, lo: int, hi: int)
    requires forall d :: d in history ==> d > hi
    ensures WindowSum(history, lo, hi) == NOTHING
    decreases hi - lo
  {
    if lo <= hi { WindowAbsent(history, lo, hi - 1); }
  }

  /** Days before the first one kept add nothing. */
  lemma {:induction false} WindowSkips(history: map<int, Day>, lo: int, first: int, hi: int)
    requires lo <= first <= hi + 1 && forall d :: d in history ==> d >= first
    ensures WindowSum(history, lo, hi) == WindowSum(history, first, hi)
    decreases hi - first
  {
    if first > hi {
      WindowAbsent(history, lo, hi);
    } else {
      WindowSkips(history, lo, first, hi - 1);
    }
  }

  lemma {:induction false} WindowSplit(recs: seq<Rec>, lo: int, mid: int, hi: int, f: Field)
    requires lo <= mid <= hi + 1
    ensures InWindow(recs, lo, hi, f) == InWindow(recs, lo, mid - 1, f) + InWindow(recs, mid, hi, f)
    decreases |recs|
  {
    if recs != [] { WindowSplit(recs[..|recs| - 1], lo, mid, hi, f); }
  }

  lemma SummaryReady(recs: seq<Rec>, today: int)
    requires Chronological(recs) && forall i :: 0 <= i < |recs| ==> recs[i].day <= today
    ensures Ready(Loaded(RunFile(recs), today), recs) && Loaded(RunFile(recs), today).day == today
  {
    RunExact(recs);
    var file := RunFile(recs);
    if file.None? {
      BlankReady(recs, today);
    } else {
      var i := SeenIsThere(recs, OnDay(file.value.day));
      LoadReady(file.value, recs, today);
    }
  }

  /**
   * Whatever the window, the summary counts exactly the calls of its days that lie in the last 31: what
   * it misses are the calls of the window's days before those.
   */
  lemma SummaryShort(recs: seq<Rec>, clock: int, end: int, days: int)
    requires Chronological(recs) && forall i :: 0 <= i < |recs| ==> recs[i].day <= clock
    ensures var lo, cut := FirstDay(end, days), if end < clock - 30 then end else clock - 31;
            var out := WindowSum(Loaded(RunFile(recs), clock).history, lo, end);
            && out.cached + InWindow(recs, lo, cut, Cached) == InWindow(recs, lo, end, Cached)
            && out.measured + InWindow(recs, lo, cut, Measured) == InWindow(recs, lo, end, Measured)
            && out.discount + InWindow(recs, lo, cut, Discount) == InWindow(recs, lo, end, Discount)
  {
    var lo, first := FirstDay(end, days), clock - 30;
    var cut := if end < first then end else first - 1;
    WindowMisses(recs, clock, lo, first, end);
    ShortBy(recs, lo, cut, first, end, Cached);
    ShortBy(recs, lo, cut, first, end, Measured);
    ShortBy(recs, lo, cut, first, end, Discount);
  }

  /** The summary is that of the part of the window inside the horizon. */
  lemma WindowMisses(recs: seq<Rec>, clock: int, lo: int, first: int, end: int)
    requires Chronological(recs) && (forall i :: 0 <= i < |recs| ==> recs[i].day <= clock) && first == clock - 30
    ensures WindowSum(Loaded(RunFile(recs), clock).history, lo, end)
            == CallsWindow(recs, if lo < first then first else lo, end)
  {
    var data := Loaded(RunFile(recs), clock);
    SummaryReady(recs, clock);
    forall d | d in data.history ensures d >= first {
      assert DayExact(data, recs, d);
    }
    if lo >= first {
      WindowsAgree(data, recs, lo, end);
    } else if end < first {
      WindowAbsent(data.history, lo, end);
      DayByDay(recs, first, end);
    } else {
      WindowSkips(data.history, lo, first, end);
      WindowsAgree(data, recs, first, end);
    }
  }

  lemma ShortBy(recs: seq<Rec>, lo: int, cut: int, first: int, end: int, f: Field)
    requires cut == if end < first then end else first - 1
    ensures InWindow(recs, if lo < first then first else lo, end, f) + InWindow(recs, lo, cut, f) == InWindow(recs, lo, end, f)
  {
    if lo >= first {
      WindowNone(recs, lo, cut, f);
    } else if end < first {
      WindowNone(recs, first, end, f);
    } else {
      WindowSplit(recs, lo, first, end, f);
    }
  }

  /** For every window of more than 31 days there is a run on which the summary is short. */
  lemma WindowTooLong(d: int, days: int, cached: nat, tokens: nat)
    requires days > 31 && cached > 0 && tokens > 0
    ensures var call := Rec(d, 0, tokens, 0, 0, Some(cached), 0, None, "c");
            var today := d + days - 1;
            var recs := [call, call.(day := today)];
            && Chronological(recs)
            && WindowSum(Loaded(RunFile(recs), today).history, FirstDay(today, days), today).cached
               < InWindow(recs, FirstDay(today, days), today, Cached)
  {
    var call := Rec(d, 0, tokens, 0, 0, Some(cached), 0, None, "c");
    var today := d + days - 1;
    var recs := [call, call.(day := today)];
    SummaryShort(recs, today, today, days);
    assert recs[..1] == [call];
    OneInWindow(call, d, today - 31);
  }

  lemma OneInWindow(call: Rec, lo: int, hi: int)
    requires lo <= call.day <= hi && call.tokens > 0 && call.cached.Some? && call.cached.value >= 0
    ensures InWindow([call], lo, hi, Cached) == call.cached.value
  {
    assert [call][..0] == [];
  }
}
