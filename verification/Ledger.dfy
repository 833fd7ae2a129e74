/** The daily spending ledger: buckets, day rollover, pruned history, cache summaries. */
module Ledger {
  import opened Common

  const HISTORY_DAYS := 30
  const INTERACTIVE := "__interactive__"

  // ---------- tallies ----------

  /**
   * What a bucket counts, in millionths of a dollar where it is money. Profile and peer buckets
   * leave the input/output split at zero; the discount is signed.
   */
  datatype Tally = Tally(usd: nat, tokens: nat, tokensIn: nat, tokensOut: nat, cached: nat, measured: nat, discount: int)

  const ZERO := Tally(0, 0, 0, 0, 0, 0, 0)

  function Plus(a: Tally, b: Tally): Tally {
    Tally(a.usd + b.usd, a.tokens + b.tokens, a.tokensIn + b.tokensIn, a.tokensOut + b.tokensOut,
          a.cached + b.cached, a.measured + b.measured, a.discount + b.discount)
  }

  /** A tally without its input/output split. */
  function Base(t: Tally): Tally {
    t.(tokensIn := 0, tokensOut := 0)
  }

  function Get(m: map<string, Tally>, k: string): Tally {
    if k in m then m[k] else ZERO
  }

  function Add(m: map<string, Tally>, k: string, x: Tally): map<string, Tally> {
    m[k := Plus(Get(m, k), x)]
  }

  /** The total of all buckets. */
  ghost function Sum(m: map<string, Tally>): Tally {
    if m == map[] then ZERO
    else
      var k :| k in m;
      Plus(m[k], Sum(m - {k}))
  }

  lemma {:induction false} SumSplit(m: map<string, Tally>, k: string)
    requires k in m
    ensures Sum(m) == Plus(m[k], Sum(m - {k}))
    decreases |m|
  {
    var j :| j in m && Sum(m) == Plus(m[j], Sum(m - {j}));
    if j != k {
      SumSplit(m - {j}, k);
      SumSplit(m - {k}, j);
      assert (m - {j}) - {k} == (m - {k}) - {j};
      var rest := Sum((m - {j}) - {k});
      assert Sum(m) == Plus(m[j], Plus(m[k], rest));
      assert Sum(m - {k}) == Plus(m[j], rest);
    }
  }

  /** Adding to one bucket adds the same to the total. */
  lemma SumAdd(m: map<string, Tally>, k: string, x: Tally)
    ensures Sum(Add(m, k, x)) == Plus(Sum(m), x)
  {
    var m' := Add(m, k, x);
    SumSplit(m', k);
    if k in m {
      SumSplit(m, k);
      assert m' - {k} == m - {k};
    } else {
      assert m' - {k} == m;
    }
  }

  // ---------- the file ----------

  /** One day of history. */
  datatype Day = Day(total: Tally, byConnection: map<string, Tally>)

  /** The decoded file; days are day numbers. */
  datatype Data = Data(day: int, profile: Tally, byPeer: map<string, Tally>, byConnection: map<string, Tally>,
                       history: map<int, Day>)

  function Blank(day: int): Data {
    Data(day, ZERO, map[], map[], map[])
  }

  function Pruned(history: map<int, Day>, today: int): map<int, Day> {
    map d | d in history && d >= today - HISTORY_DAYS :: history[d]
  }

  lemma HasDay(days: set<int>)
    requires days != {}
    ensures exists d :: d in days
  {
    assert (forall d :: d !in days) ==> days == {};
  }

  /** The history a new day starts with: files from before histories get their last day filed. */
  function Closed(data: Data): map<int, Day> {
    if data.day !in data.history && (data.profile.usd != 0 || data.profile.tokens != 0)
    then data.history[data.day := Day(Base(data.profile), data.byConnection)]
    else data.history
  }

  function Rolled(data: Data, today: int): Data {
    Blank(today).(history := Pruned(Closed(data), today))
  }

  /** `load`: nothing stored, or nothing readable, starts blank. */
  function Loaded(file: Option<Data>, today: int): Data {
    match file
    case None => Blank(today)
    case Some(data) => if data.day != today then Rolled(data, today) else data
  }

  // ---------- recording ----------

  /** The arguments of one `record` call, its context and its clock; a missing discount is zero. */
  datatype Rec = Rec(day: int, usd: int, tokens: int, tokensIn: int, tokensOut: int,
                     cached: Option<int>, discount: int, peer: Option<string>, connection: string)

  function Positive(n: int): nat { if n > 0 then n else 0 }

  /** Calls without cost and without tokens change nothing. */
  predicate Ignored(r: Rec) { r.usd <= 0 && r.tokens <= 0 }

  /** What a call adds; input tokens count as measured only when the provider reported a cache figure. */
  function Amount(r: Rec): Tally {
    Tally(Positive(r.usd), Positive(r.tokens), Positive(r.tokensIn), Positive(r.tokensOut),
          if r.cached.Some? then Positive(r.cached.value) else 0,
          if r.cached.Some? then Positive(r.tokensIn) else 0,
          r.discount)
  }

  function PeerOf(r: Rec): string {
    if r.peer.Some? && r.peer.value != "" then r.peer.value else INTERACTIVE
  }

  /** The file after a call, from what `load` returned. */
  function Recorded(data: Data, r: Rec): Data {
    var x := Amount(r);
    var profile := Plus(data.profile, Base(x));
    var byConnection := Add(data.byConnection, r.connection, x);
    var old_ := if data.day in data.history then data.history[data.day] else Day(ZERO, map[]);
    var entry := Day(Plus(old_.total, x).(usd := profile.usd, tokens := profile.tokens),
                     old_.byConnection[r.connection := byConnection[r.connection]]);
    Data(data.day, profile, Add(data.byPeer, PeerOf(r), Base(x)), byConnection,
         Pruned(data.history[data.day := entry], data.day))
  }

  /** What one call makes of the file. */
  function StepFile(file: Option<Data>, r: Rec): Option<Data> {
    if Ignored(r) then file else Some(Recorded(Loaded(file, r.day), r))
  }

  datatype Level = Reached80 | Reached100

  /** The threshold event of a record, for a cap in the same unit as the spend. */
  function EventOf(before: nat, after: nat, budget: Option<int>): Option<Level> {
    if budget.None? || budget.value <= 0 then None
    else if before < budget.value <= after then Some(Reached100)
    else if 5 * before < 4 * budget.value <= 5 * after then Some(Reached80)
    else None
  }

  /** What a record call says about the budget. */
  function StepEvent(file: Option<Data>, r: Rec, budget: Option<int>): Option<Level> {
    if Ignored(r) then None
    else EventOf(Loaded(file, r.day).profile.usd, Loaded(file, r.day).profile.usd + Positive(r.usd), budget)
  }

  // ---------- cache summaries ----------

  datatype Summary = Summary(days: nat, cached: nat, measured: nat, discount: int)

  const NOTHING := Summary(0, 0, 0, 0)

  /** Whether a day says anything about caching. */
  predicate HasCache(t: Tally) { !(t.measured <= 0 && t.cached <= 0 && t.discount == 0) }

  function Count(s: Summary, t: Tally): Summary {
    if HasCache(t) then Summary(s.days + 1, s.cached + t.cached, s.measured + t.measured, s.discount + t.discount) else s
  }

  /** The days from `lo` to `hi`, counted one by one. */
  function WindowSum(history: map<int, Day>, lo: int, hi: int): Summary
    decreases hi - lo
  {
    if lo > hi then NOTHING
    else
      var s := WindowSum(history, lo, hi - 1);
      if hi in history then Count(s, history[hi].total) else s
  }

  /** A day counted last is counted all the same. */
  lemma {:induction false} WindowAdds(m: map<int, Day>, d: int, v: Day, lo: int, hi: int)
    requires d !in m
    ensures WindowSum(m[d := v], lo, hi) == if lo <= d <= hi then Count(WindowSum(m, lo, hi), v.total) else WindowSum(m, lo, hi)
    decreases hi - lo
  {
    if lo <= hi {
      WindowAdds(m, d, v, lo, hi - 1);
    }
  }

  lemma {:induction false} WindowOfNothing(lo: int, hi: int)
    ensures WindowSum(map[], lo, hi) == NOTHING
    decreases hi - lo
  {
    if lo <= hi { WindowOfNothing(lo, hi - 1); }
  }

  class LedgerFile {
    var file: Option<Data>

    constructor ()
      ensures file == None
    {
      file := None;
    }

    /** `_prune_history` */
    static method PruneHistory(history: map<int, Day>, today: int) returns (out: map<int, Day>)
      ensures out == Pruned(history, today)
    {
      var cutoff := today - HISTORY_DAYS;
      out := map[];
      var rest := history.Keys;
      while rest != {}
        invariant rest <= history.Keys
        invariant out == Pruned(history - rest, today)
        decreases |rest|
      {
        HasDay(rest);
        var d :| d in rest;
        if d >= cutoff {
          out := out[d := history[d]];
        }
        rest := rest - {d};
      }
      assert history - {} == history;
    }

    /** `_rollover` */
    static method Rollover(data: Data, today: int) returns (fresh_: Data)
      requires data.day != today
      ensures fresh_ == Rolled(data, today)
    {
      var history := data.history;
      if data.day !in history && (data.profile.usd != 0 || data.profile.tokens != 0) {
        history := history[data.day := Day(Base(data.profile), data.byConnection)];
      }
      var kept := PruneHistory(history, today);
      fresh_ := Blank(today).(history := kept);
    }

    method Load(today: int) returns (data: Data)
      ensures data == Loaded(file, today)
    {
      if file.None? {
        return Blank(today);
      }
      data := file.value;
      if data.day != today {
        data := Rollover(data, today);
      }
    }

    /** `check`: refuses at or past the cap. */
    method Check(today: int, budget: Option<int>) returns (ok: bool)
      ensures ok <==> budget.None? || budget.value <= 0 || Loaded(file, today).profile.usd < budget.value
    {
      if budget.None? || budget.value <= 0 {
        return true;
      }
      var data := Load(today);
      ok := data.profile.usd < budget.value;
    }

    /** Adds a call to every bucket, one after the other, and stores the result. */
    method Record(r: Rec, budget: Option<int>) returns (event: Option<Level>)
      modifies this
      ensures file == StepFile(old(file), r)
      ensures event == StepEvent(old(file), r, budget)
    {
      if r.usd <= 0 && r.tokens <= 0 {
        return None;
      }
      var x := Amount(r);
      var data := Load(r.day);
      var before := data.profile.usd;
      data := data.(profile := Plus(data.profile, Base(x)));
      data := data.(byPeer := Add(data.byPeer, PeerOf(r), Base(x)));
      data := data.(byConnection := Add(data.byConnection, r.connection, x));
      var entry := if data.day in data.history then data.history[data.day] else Day(ZERO, map[]);
      entry := entry.(total := Plus(entry.total, x).(usd := data.profile.usd, tokens := data.profile.tokens));
      entry := entry.(byConnection := entry.byConnection[r.connection := data.byConnection[r.connection]]);
      var history := PruneHistory(data.history[data.day := entry], data.day);
      data := data.(history := history);
      file := Some(data);
      event := EventOf(before, data.profile.usd, budget);
    }

    /**
     * `cache_summary`: the file is loaded by the clock, the window ends where the caller says, and the
     * days are visited in no particular order.
     */
    method CacheSummary(clock: int, today: Option<int>, days: int) returns (out: Summary)
      ensures var end := if today.Some? then today.value else clock;
              out == WindowSum(Loaded(file, clock).history, if days > 1 then end - days + 1 else end, end)
    {
      var end := if today.Some? then today.value else clock;
      var data := Load(clock);
      var cutoff := end - Positive(days - 1);
      out := NOTHING;
      var rest := data.history.Keys;
      assert data.history - rest == map[];
      WindowOfNothing(cutoff, end);
      while rest != {}
        invariant rest <= data.history.Keys
        invariant out == WindowSum(data.history - rest, cutoff, end)
        decreases |rest|
      {
        HasDay(rest);
        var d :| d in rest;
        WindowAdds(data.history - rest, d, data.history[d], cutoff, end);
        assert data.history - (rest - {d}) == (data.history - rest)[d := data.history[d]];
        rest := rest - {d};
        if d < cutoff || d > end {
          continue;
        }
        var t := data.history[d].total;
        if t.measured <= 0 && t.cached <= 0 && t.discount == 0 {
          continue;
        }
        out := Summary(out.days + 1, out.cached + t.cached, out.measured + t.measured, out.discount + t.discount);
      }
      assert data.history - {} == data.history;
    }
  }
}
