/** Budget events and overshoot over one UTC day with a fixed cap. */
module Budget {
  import opened Common
  import opened Ledger

  // ---------- a day of calls ----------

  /** A record call with the budget its caller passed along, if any. */
  datatype Call = Call(rec: Rec, budget: Option<int>)

  function FileAfter(file: Option<Data>, calls: seq<Call>, i: nat): Option<Data>
    requires i <= |calls|
  {
    if i == 0 then file else StepFile(FileAfter(file, calls, i - 1), calls[i - 1].rec)
  }

  /** The event the i-th call emits. */
  function EventAt(file: Option<Data>, calls: seq<Call>, i: nat): Option<Level>
    requires i < |calls|
  {
    StepEvent(FileAfter(file, calls, i), calls[i].rec, calls[i].budget)
  }

  /** The money of the first `i` calls. */
  function Spent(calls: seq<Call>, i: nat): nat
    requires i <= |calls|
  {
    if i == 0 then 0 else Spent(calls, i - 1) + Max(0, calls[i - 1].rec.usd)
  }

  /** All calls on one day that starts unspent, each with the one cap or with no budget at all. */
  predicate OneDay(file: Option<Data>, calls: seq<Call>, day: int, cap: int) {
    && cap > 0
    && Loaded(file, day).profile.usd == 0
    && forall i :: 0 <= i < |calls| ==> calls[i].rec.day == day && (calls[i].budget == None || calls[i].budget == Some(cap))
  }

  /** The live counter is the money of the calls so far. */
  lemma {:induction false} CounterIsSpent(file: Option<Data>, calls: seq<Call>, day: int, cap: int, i: nat)
    requires OneDay(file, calls, day, cap) && i <= |calls|
    ensures Loaded(FileAfter(file, calls, i), day).profile.usd == Spent(calls, i)
  {
    if i > 0 {
      CounterIsSpent(file, calls, day, cap, i - 1);
    }
  }

  lemma {:induction false} SpentGrows(calls: seq<Call>, i: nat, j: nat)
    requires i <= j <= |calls|
    ensures Spent(calls, i) <= Spent(calls, j)
    decreases j
  {
    if i < j { SpentGrows(calls, i, j - 1); }
  }

  /** The i-th call takes the spend across the cap. */
  predicate Crosses(calls: seq<Call>, cap: int, i: nat)
    requires i < |calls|
  {
    Spent(calls, i) < cap <= Spent(calls, i + 1)
  }

  /** The i-th call takes the spend across four fifths of the cap, and not across the cap. */
  predicate Warns(calls: seq<Call>, cap: int, i: nat)
    requires i < |calls|
  {
    5 * Spent(calls, i) < 4 * cap <= 5 * Spent(calls, i + 1) && Spent(calls, i + 1) < cap
  }

  lemma EventMeans(file: Option<Data>, calls: seq<Call>, day: int, cap: int, i: nat)
    requires OneDay(file, calls, day, cap) && i < |calls|
    ensures EventAt(file, calls, i) == Some(Reached100) <==> calls[i].budget.Some? && Crosses(calls, cap, i)
    ensures EventAt(file, calls, i) == Some(Reached80) <==> calls[i].budget.Some? && Warns(calls, cap, i)
  {
    CounterIsSpent(file, calls, day, cap, i);
    assert Spent(calls, i + 1) == Spent(calls, i) + Max(0, calls[i].rec.usd);
  }

  /** No level is reported twice in a day. */
  lemma ReportedOnce(file: Option<Data>, calls: seq<Call>, day: int, cap: int, i: nat, j: nat)
    requires OneDay(file, calls, day, cap) && i < j < |calls| && EventAt(file, calls, i).Some?
    ensures EventAt(file, calls, j) != EventAt(file, calls, i)
  {
    EventMeans(file, calls, day, cap, i);
    EventMeans(file, calls, day, cap, j);
    SpentGrows(calls, i + 1, j);
  }

  /** After the cap is reported nothing else is. */
  lemma NothingAfterTheCap(file: Option<Data>, calls: seq<Call>, day: int, cap: int, i: nat, j: nat)
    requires OneDay(file, calls, day, cap) && i < j < |calls| && EventAt(file, calls, i) == Some(Reached100)
    ensures EventAt(file, calls, j) == None
  {
    EventMeans(file, calls, day, cap, i);
    EventMeans(file, calls, day, cap, j);
    SpentGrows(calls, i + 1, j);
  }

  ghost predicate Reports(file: Option<Data>, calls: seq<Call>, level: Level) {
    exists i :: 0 <= i < |calls| && EventAt(file, calls, i) == Some(level)
  }

  lemma {:induction false} CrossingExists(calls: seq<Call>, cap: int, n: nat) returns (i: nat)
    requires n <= |calls| && 0 < cap <= Spent(calls, n)
    ensures i < n && Crosses(calls, cap, i)
    decreases n
  {
    if Spent(calls, n - 1) < cap {
      i := n - 1;
    } else {
      i := CrossingExists(calls, cap, n - 1);
    }
  }

  /**
   * The cap is reported exactly when the day's spend reaches it and the call that got there was
   * given the budget.
   */
  lemma CapReported(file: Option<Data>, calls: seq<Call>, day: int, cap: int)
    requires OneDay(file, calls, day, cap)
    ensures Reports(file, calls, Reached100)
            <==> Spent(calls, |calls|) >= cap && forall i :: 0 <= i < |calls| && Crosses(calls, cap, i) ==> calls[i].budget.Some?
  {
    if Reports(file, calls, Reached100) {
      var i :| 0 <= i < |calls| && EventAt(file, calls, i) == Some(Reached100);
      EventMeans(file, calls, day, cap, i);
      SpentGrows(calls, i + 1, |calls|);
      forall j | 0 <= j < |calls| && Crosses(calls, cap, j) ensures calls[j].budget.Some? {
        CrossedOnce(calls, cap, i, j);
      }
    } else if Spent(calls, |calls|) >= cap {
      var i := CrossingExists(calls, cap, |calls|);
      EventMeans(file, calls, day, cap, i);
    }
  }

  lemma CrossedOnce(calls: seq<Call>, cap: int, i: nat, j: nat)
    requires i < |calls| && j < |calls| && Crosses(calls, cap, i) && Crosses(calls, cap, j)
    ensures i == j
  {
    if i < j { SpentGrows(calls, i + 1, j); }
    if j < i { SpentGrows(calls, j + 1, i); }
  }

  /** With every call given the budget, the cap is reported if and only if it is reached. */
  lemma CapReportedAlways(file: Option<Data>, calls: seq<Call>, day: int, cap: int)
    requires OneDay(file, calls, day, cap) && forall i :: 0 <= i < |calls| ==> calls[i].budget.Some?
    ensures Reports(file, calls, Reached100) <==> Spent(calls, |calls|) >= cap
  {
    CapReported(file, calls, day, cap);
  }

  /** One call past both marks reports only the higher. */
  lemma VaultingReportsTheCap(file: Option<Data>, calls: seq<Call>, day: int, cap: int, i: nat)
    requires OneDay(file, calls, day, cap) && i < |calls| && calls[i].budget.Some?
    requires 5 * Spent(calls, i) < 4 * cap && cap <= Spent(calls, i + 1)
    ensures EventAt(file, calls, i) == Some(Reached100)
    ensures !Reports(file, calls, Reached80)
  {
    EventMeans(file, calls, day, cap, i);
    forall j | 0 <= j < |calls| ensures EventAt(file, calls, j) != Some(Reached80) {
      EventMeans(file, calls, day, cap, j);
      if j < i { SpentGrows(calls, j + 1, i); }
      if i < j { SpentGrows(calls, i + 1, j); }
    }
  }

  // ---------- overshoot ----------

  /** What happens on the day: a budget check, or a call. */
  datatype Step = Checked | Called(call: Call)

  /** The calls among the first `i` steps. */
  function CallsOf(steps: seq<Step>, i: nat): seq<Call>
    requires i <= |steps|
  {
    if i == 0 then []
    else if steps[i - 1].Called? then CallsOf(steps, i - 1) + [steps[i - 1].call]
    else CallsOf(steps, i - 1)
  }

  /** The day's spend after `i` steps, on top of what was spent before them. */
  function SpentAfter(start: nat, steps: seq<Step>, i: nat): nat
    requires i <= |steps|
  {
    if i == 0 then start
    else SpentAfter(start, steps, i - 1) + if steps[i - 1].Called? then Max(0, steps[i - 1].call.rec.usd) else 0
  }

  function CallsBetween(steps: seq<Step>, i: nat, j: nat): nat
    requires i <= j <= |steps|
    decreases j
  {
    if i == j then 0 else CallsBetween(steps, i, j - 1) + if steps[j - 1].Called? then 1 else 0
  }

  /** A check before step `i` found the spend below the cap. */
  predicate Passed(start: nat, steps: seq<Step>, cap: nat, i: nat)
    requires i < |steps|
  {
    steps[i].Checked? && SpentAfter(start, steps, i) < cap
  }

  /** Every call comes at most `k` calls after a check that passed. */
  ghost predicate Admitted(start: nat, steps: seq<Step>, cap: nat, k: nat) {
    forall i :: 0 <= i < |steps| && steps[i].Called? ==> AdmittedAt(start, steps, cap, k, i)
  }

  ghost predicate AdmittedAt(start: nat, steps: seq<Step>, cap: nat, k: nat, i: nat)
    requires i < |steps|
  {
    exists c :: 0 <= c <= i && Passed(start, steps, cap, c) && CallsBetween(steps, c, i + 1) <= k
  }

  predicate AtMost(steps: seq<Step>, m: nat) {
    forall i :: 0 <= i < |steps| && steps[i].Called? ==> steps[i].call.rec.usd <= m
  }

  lemma {:induction false} BoundedBetween(start: nat, steps: seq<Step>, m: nat, i: nat, j: nat)
    requires AtMost(steps, m) && i <= j <= |steps|
    ensures SpentAfter(start, steps, j) <= SpentAfter(start, steps, i) + CallsBetween(steps, i, j) * m
    decreases j
  {
    if i < j {
      BoundedBetween(start, steps, m, i, j - 1);
      OneMoreTimes(CallsBetween(steps, i, j - 1), m);
    }
  }

  lemma OneMoreTimes(c: nat, m: nat)
    ensures (c + 1) * m == c * m + m
  {
  }

  lemma TimesMonotone(a: nat, b: nat, m: nat)
    requires a <= b
    ensures a * m <= b * m
  {
  }

  /** At most `k` calls of at most `m` after each passed check keep the spend below `cap + k * m`. */
  lemma {:induction false} OvershootBound(start: nat, steps: seq<Step>, cap: nat, k: nat, m: nat, n: nat)
    requires start < cap && Admitted(start, steps, cap, k) && AtMost(steps, m) && n <= |steps|
    ensures SpentAfter(start, steps, n) < cap + k * m
    decreases n
  {
    if n > 0 {
      if steps[n - 1].Called? {
        assert AdmittedAt(start, steps, cap, k, n - 1);
        var c :| 0 <= c <= n - 1 && Passed(start, steps, cap, c) && CallsBetween(steps, c, n) <= k;
        BoundedBetween(start, steps, m, c, n);
        TimesMonotone(CallsBetween(steps, c, n), k, m);
      } else {
        OvershootBound(start, steps, cap, k, m, n - 1);
      }
    }
  }

  /** The spend of the steps is what the ledger's live counter shows, so a check is what `check` tests. */
  lemma {:induction false} StepsAreCalls(file: Option<Data>, steps: seq<Step>, day: int, i: nat)
    requires i <= |steps|
    requires forall j :: 0 <= j < |steps| && steps[j].Called? ==> steps[j].call.rec.day == day
    ensures var calls := CallsOf(steps, i);
            Loaded(FileAfter(file, calls, |calls|), day).profile.usd == SpentAfter(Loaded(file, day).profile.usd, steps, i)
  {
    if i > 0 {
      StepsAreCalls(file, steps, day, i - 1);
      if steps[i - 1].Called? {
        FileAfterSnoc(file, CallsOf(steps, i - 1), steps[i - 1].call, |CallsOf(steps, i - 1)|);
      }
    }
  }

  lemma {:induction false} FileAfterSnoc(file: Option<Data>, calls: seq<Call>, c: Call, i: nat)
    requires i <= |calls|
    ensures FileAfter(file, calls + [c], i) == FileAfter(file, calls, i)
    decreases i
  {
    if i > 0 { FileAfterSnoc(file, calls, c, i - 1); }
  }

  function Burst(call: Call, k: nat): (steps: seq<Step>)
    ensures |steps| == k + 1
  {
    if k == 0 then [Checked] else Burst(call, k - 1) + [Called(call)]
  }

  lemma {:induction false} BurstSpends(start: nat, call: Call, k: nat, n: nat)
    requires call.rec.usd >= 0 && n <= k
    ensures SpentAfter(start, Burst(call, k), n + 1) == start + n * call.rec.usd
    ensures CallsBetween(Burst(call, k), 0, n + 1) == n && Burst(call, k)[0] == Checked
    decreases k, n
  {
    var steps := Burst(call, k);
    if k > 0 {
      BurstSpends(start, call, k - 1, 0);
      if n == 0 {
        assert SpentAfter(start, steps, 0) == start;
      } else {
        BurstSpends(start, call, k, n - 1);
        BurstIsCalls(call, k, n);
        assert n * call.rec.usd == (n - 1) * call.rec.usd + call.rec.usd;
      }
    }
  }

  lemma {:induction false} BurstIsCalls(call: Call, k: nat, i: nat)
    requires 1 <= i <= k
    ensures Burst(call, k)[i] == Called(call)
    decreases k
  {
    if i < k { BurstIsCalls(call, k - 1, i); }
  }

  /** The bound is met to the last unit: one check just below the cap, then `k` calls of `m`. */
  lemma OvershootIsTight(cap: nat, k: nat, call: Call)
    requires cap > 0 && call.rec.usd >= 0
    ensures var steps := Burst(call, k);
            && Admitted(cap - 1, steps, cap, k) && AtMost(steps, call.rec.usd)
            && SpentAfter(cap - 1, steps, |steps|) + 1 == cap + k * call.rec.usd
  {
    var steps := Burst(call, k);
    BurstSpends(cap - 1, call, k, k);
    forall i | 0 <= i < |steps| && steps[i].Called? ensures AdmittedAt(cap - 1, steps, cap, k, i) {
      BurstSpends(cap - 1, call, k, i);
      assert Passed(cap - 1, steps, cap, 0);
    }
    forall i | 0 <= i < |steps| && steps[i].Called? ensures steps[i].call.rec.usd <= call.rec.usd {
      BurstSpends(cap - 1, call, k, 0);
      BurstIsCalls(call, k, i);
    }
  }
}
