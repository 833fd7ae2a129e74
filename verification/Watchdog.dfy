/**
 * The stream watchdog: a pump thread feeds a one-slot queue and a generator drains it under
 * three deadlines. A run is any interleaving of the two, given as a sequence of events.
 */
module Watchdog {
  import opened Common
  import opened Chunks

  /** How a stream fails; `Provider` carries the identity of the exception the iterator raised. */
  datatype Failure = Stalled | StreamDeadline | BudgetExceeded | Provider(error: nat)

  /** Arguments of one watchdog, and the provider it watches: its chunks, then how it ends. */
  datatype Config = Config(firstByte: real, idle: real, maxDuration: real, absolute: Option<real>, start: real,
                           script: seq<Chunk>, ending: Option<nat>)
  {
    function Duration(): Option<real> {
      if maxDuration > 0.0 then Some(start + maxDuration) else None
    }

    function EndItem(): Item {
      match ending
      case None => DoneItem
      case Some(e) => ErrorItem(e)
    }

    /** The earlier of the absolute and the duration deadline. */
    function StreamLimit(): Option<real> {
      Earlier(absolute, Duration())
    }

    function Timeout(first: bool): real {
      if first then firstByte else idle
    }
  }

  function Earlier(a: Option<real>, b: Option<real>): Option<real> {
    if a.None? then b
    else if b.None? then a
    else if a.value <= b.value then a else b
  }

  predicate Reached(deadline: Option<real>, now: real) {
    deadline.Some? && now >= deadline.value
  }

  datatype Item = ChunkItem(chunk: Chunk) | DoneItem | ErrorItem(error: nat)

  /** The pump is pulling from the iterator, about to check the flag, inside `q.put`, or gone. */
  datatype Pump = Pulling | Holding(item: Item) | Offering(item: Item) | Stopped

  datatype Outcome = Returned | Raised(failure: Failure) | Closed

  /** The generator is at the loop top, inside `q.get`, suspended at its `yield`, or finished. */
  datatype Gen = Top | Blocked(until: Option<real>) | Suspended | Exited(outcome: Outcome)

  /** A chunk handed out, with the two clock readings that let it pass. */
  datatype Yield = Yield(chunk: Chunk, checked: real, stallChecked: real, stallDeadline: Option<real>)

  datatype State = State(clock: real, pulled: nat, pump: Pump, queue: seq<Item>, cancelled: bool,
                         gen: Gen, first: bool, deadline: Option<real>, yielded: seq<Yield>)

  function Init(cfg: Config): State {
    State(cfg.start, 0, Pulling, [], false, Top, true, None, [])
  }

  /** One atomic step of either side; the reals are the clock readings the step takes. */
  datatype Event =
    | Pull | CheckFlag | Offer
    | Arm(now: real) | Take(now: real, later: real) | Empty(now: real) | Resume | Close
    | Tick(now: real)

  predicate IsPumpEvent(e: Event) { e.Pull? || e.CheckFlag? || e.Offer? }

  predicate Enabled(cfg: Config, s: State, e: Event) {
    match e
    case Pull => s.pump.Pulling?
    case CheckFlag => s.pump.Holding?
    case Offer => s.pump.Offering?
    case Arm(now) => s.gen.Top? && now >= s.clock
    case Take(now, later) => s.gen.Blocked? && s.queue != [] && s.clock <= now <= later
    case Empty(now) => s.gen.Blocked? && s.queue == [] && Reached(s.gen.until, now) && now >= s.clock
    case Resume => s.gen.Suspended?
    case Close => s.gen.Suspended?
    case Tick(now) => now >= s.clock
  }

  function Exit(s: State, outcome: Outcome): State {
    s.(gen := Exited(outcome), cancelled := true)
  }

  /** Which deadline an expired wait is blamed on. */
  function Blame(cfg: Config, now: real): Failure {
    if Reached(cfg.absolute, now) then BudgetExceeded
    else if Reached(cfg.Duration(), now) then StreamDeadline
    else Stalled
  }

  function Apply(cfg: Config, s: State, e: Event): State
    requires Enabled(cfg, s, e)
  {
    match e
    case Pull =>
      if s.pulled < |cfg.script| then s.(pulled := s.pulled + 1, pump := Holding(ChunkItem(cfg.script[s.pulled])))
      else s.(pump := Holding(cfg.EndItem()))
    case CheckFlag =>
      s.(pump := if s.cancelled then Stopped else Offering(s.pump.item))
    case Offer =>
      if s.queue == [] then
        s.(queue := [s.pump.item], pump := if s.pump.item.ChunkItem? then Pulling else Stopped)
      else s.(pump := Holding(s.pump.item))
    case Arm(now) =>
      var timeout := cfg.Timeout(s.first);
      if timeout > 0.0 then
        var deadline := if s.deadline.None? then Some(now + timeout) else s.deadline;
        s.(clock := now, deadline := deadline, gen := Blocked(Earlier(deadline, cfg.StreamLimit())))
      else s.(clock := now, gen := Blocked(cfg.StreamLimit()))
    case Take(now, later) =>
      HandleItem(cfg, s.(clock := later, queue := s.queue[1..]), s.queue[0], now)
    case Empty(now) => Exit(s.(clock := now), Raised(Blame(cfg, now)))
    case Resume => s.(gen := Top)
    case Close => Exit(s, Closed)
    case Tick(now) => s.(clock := now)
  }

  /** What the generator does with an item it got; `s.clock` is the later of its two readings. */
  function HandleItem(cfg: Config, s: State, item: Item, now: real): State {
    if Reached(cfg.absolute, now) then Exit(s, Raised(BudgetExceeded))
    else if Reached(cfg.Duration(), now) then Exit(s, Raised(StreamDeadline))
    else match item
      case DoneItem => Exit(s, Returned)
      case ErrorItem(e) => Exit(s, Raised(Provider(e)))
      case ChunkItem(c) =>
        if Active(c) then
          s.(first := false, deadline := None, gen := Suspended,
             yielded := s.yielded + [Yield(c, now, s.clock, s.deadline)])
        else if Reached(s.deadline, s.clock) then Exit(s, Raised(Stalled))
        else s.(gen := Suspended, yielded := s.yielded + [Yield(c, now, s.clock, s.deadline)])
  }

  /** Runs `es` from `s`; `None` when some event is not enabled. */
  function Run(cfg: Config, s: State, es: seq<Event>): Option<State>
    decreases |es|
  {
    if es == [] then Some(s)
    else if Enabled(cfg, s, es[0]) then Run(cfg, Apply(cfg, s, es[0]), es[1..])
    else None
  }

  // ---------- the invariant ----------

  function Payload(ys: seq<Yield>): (cs: seq<Chunk>)
    ensures |cs| == |ys| && forall i :: 0 <= i < |ys| ==> cs[i] == ys[i].chunk
  {
    seq(|ys|, i requires 0 <= i < |ys| => ys[i].chunk)
  }

  function Carried(item: Item): seq<Chunk> {
    if item.ChunkItem? then [item.chunk] else []
  }

  /** Chunks pulled but not yet yielded. */
  function InFlight(s: State): seq<Chunk> {
    (if s.queue == [] then [] else Carried(s.queue[0]))
    + (if s.pump.Holding? || s.pump.Offering? then Carried(s.pump.item) else [])
  }

  predicate EndsOnlyAtTheEnd(cfg: Config, s: State, item: Item) {
    !item.ChunkItem? ==> s.pulled == |cfg.script| && item == cfg.EndItem()
  }

  predicate InTime(cfg: Config, y: Yield) {
    && !Reached(cfg.absolute, y.checked)
    && !Reached(cfg.Duration(), y.checked)
    && y.checked <= y.stallChecked
    && (!Active(y.chunk) ==> !Reached(y.stallDeadline, y.stallChecked))
  }

  /** What each way of finishing proves about the stream. */
  predicate OutcomeJustified(cfg: Config, s: State, outcome: Outcome) {
    match outcome
    case Returned => Payload(s.yielded) == cfg.script && cfg.ending == None
    case Raised(Provider(e)) => Payload(s.yielded) == cfg.script && cfg.ending == Some(e)
    case Raised(BudgetExceeded) => Reached(cfg.absolute, s.clock)
    case Raised(StreamDeadline) => Reached(cfg.Duration(), s.clock)
    case Raised(Stalled) => cfg.Timeout(s.first) > 0.0 && Reached(s.deadline, s.clock)
    case Closed => true
  }

  predicate Inv(cfg: Config, s: State) {
    && |s.queue| <= 1
    && s.pulled <= |cfg.script|
    && |s.yielded| <= |cfg.script|
    && s.cancelled == s.gen.Exited?
    && Payload(s.yielded) == cfg.script[..|s.yielded|]
    && (!s.cancelled ==> Payload(s.yielded) + InFlight(s) == cfg.script[..s.pulled])
    && (s.queue != [] ==> EndsOnlyAtTheEnd(cfg, s, s.queue[0]))
    && (s.queue != [] && !s.queue[0].ChunkItem? ==> s.pump.Stopped?)
    && (s.pump.Holding? || s.pump.Offering? ==> EndsOnlyAtTheEnd(cfg, s, s.pump.item))
    && (forall i :: 0 <= i < |s.yielded| ==> InTime(cfg, s.yielded[i]))
    && (s.deadline.Some? ==> cfg.Timeout(s.first) > 0.0)
    && (s.gen.Blocked? ==> s.gen.until == Earlier(s.deadline, cfg.StreamLimit()))
    && (s.gen.Exited? ==> OutcomeJustified(cfg, s, s.gen.outcome))
  }

  lemma PumpKeepsInv(cfg: Config, s: State, e: Event)
    requires Inv(cfg, s) && IsPumpEvent(e) && Enabled(cfg, s, e)
    ensures Inv(cfg, Apply(cfg, s, e))
  {
    var s' := Apply(cfg, s, e);
    if e.Pull? {
      if s.pulled < |cfg.script| {
        assert cfg.script[..s'.pulled] == cfg.script[..s.pulled] + [cfg.script[s.pulled]];
        if !s.cancelled {
          assert InFlight(s') == InFlight(s) + [cfg.script[s.pulled]];
        }
      } else {
        assert InFlight(s') == InFlight(s);
      }
    } else if !s'.cancelled {
      assert InFlight(s') == InFlight(s);
    }
  }

  lemma TakeKeepsInv(cfg: Config, s: State, e: Event)
    requires Inv(cfg, s) && e.Take? && Enabled(cfg, s, e)
    ensures Inv(cfg, Apply(cfg, s, e))
  {
    var taken := s.(clock := e.later, queue := s.queue[1..]);
    if s.queue[0].ChunkItem? {
      TakeChunk(cfg, s, taken, s.queue[0].chunk, e.now);
    } else {
      assert InFlight(s) == [];
      assert Payload(s.yielded) == cfg.script[..s.pulled] == cfg.script;
    }
  }

  lemma TakeChunk(cfg: Config, s: State, taken: State, c: Chunk, now: real)
    requires Inv(cfg, s) && s.gen.Blocked? && s.queue == [ChunkItem(c)]
    requires s.clock <= now <= taken.clock && taken == s.(clock := taken.clock, queue := [])
    ensures Inv(cfg, HandleItem(cfg, taken, ChunkItem(c), now))
  {
    NextOfPrefix(Payload(s.yielded), c, InFlight(taken), cfg.script, s.pulled) by {
      assert InFlight(s) == [c] + InFlight(taken);
    }
    if HandleItem(cfg, taken, ChunkItem(c), now).gen.Suspended? {
      ChunkYielded(cfg, s, taken, c, now);
    }
  }

  lemma ChunkYielded(cfg: Config, s: State, taken: State, c: Chunk, now: real)
    requires Inv(cfg, s) && s.gen.Blocked? && s.queue == [ChunkItem(c)]
    requires s.clock <= now <= taken.clock && taken == s.(clock := taken.clock, queue := [])
    requires |s.yielded| < |cfg.script| && Payload(s.yielded) + [c] == cfg.script[..|s.yielded| + 1]
    requires (Payload(s.yielded) + [c]) + InFlight(taken) == cfg.script[..s.pulled]
    requires HandleItem(cfg, taken, ChunkItem(c), now).gen.Suspended?
    ensures Inv(cfg, HandleItem(cfg, taken, ChunkItem(c), now))
  {
    var s' := HandleItem(cfg, taken, ChunkItem(c), now);
    assert Payload(s'.yielded) == Payload(s.yielded) + [c];
    assert InFlight(s') == InFlight(taken);
  }

  lemma NextOfPrefix(a: seq<Chunk>, c: Chunk, rest: seq<Chunk>, script: seq<Chunk>, k: nat)
    requires k <= |script| && a + ([c] + rest) == script[..k]
    ensures |a| < |script| && a + [c] == script[..|a| + 1]
    ensures (a + [c]) + rest == script[..k]
  {
    assert (a + [c]) + rest == a + ([c] + rest);
    assert script[..|a| + 1] == script[..k][..|a| + 1];
  }

  lemma StepKeepsInv(cfg: Config, s: State, e: Event)
    requires Inv(cfg, s) && Enabled(cfg, s, e)
    ensures Inv(cfg, Apply(cfg, s, e))
  {
    if IsPumpEvent(e) {
      PumpKeepsInv(cfg, s, e);
    } else if e.Take? {
      TakeKeepsInv(cfg, s, e);
    } else {
      assert InFlight(Apply(cfg, s, e)) == InFlight(s);
    }
  }

  lemma {:induction false} RunKeepsInv(cfg: Config, s: State, es: seq<Event>)
    requires Inv(cfg, s) && Run(cfg, s, es).Some?
    ensures Inv(cfg, Run(cfg, s, es).value)
    decreases |es|
  {
    if es != [] {
      StepKeepsInv(cfg, s, es[0]);
      RunKeepsInv(cfg, Apply(cfg, s, es[0]), es[1..]);
    }
  }

  /** Whatever the interleaving, the invariant holds. */
  lemma Reachable(cfg: Config, es: seq<Event>)
    requires Run(cfg, Init(cfg), es).Some?
    ensures Inv(cfg, Run(cfg, Init(cfg), es).value)
  {
    RunKeepsInv(cfg, Init(cfg), es);
  }

  // ---------- the guarantees, run by run ----------

  /** What is yielded is an in-order prefix of what the provider sent; a normal return means all of it. */
  lemma YieldsAreAPrefix(cfg: Config, es: seq<Event>)
    requires Run(cfg, Init(cfg), es).Some?
    ensures var s := Run(cfg, Init(cfg), es).value;
            && Payload(s.yielded) <= cfg.script
            && (s.gen == Exited(Returned) ==> Payload(s.yielded) == cfg.script && cfg.ending == None)
            && (forall e: nat :: s.gen == Exited(Raised(Provider(e))) ==>
                              Payload(s.yielded) == cfg.script && cfg.ending == Some(e))
  {
    Reachable(cfg, es);
  }

  /** Every chunk handed out was checked strictly before the absolute and the duration deadline. */
  lemma NothingYieldedPastADeadline(cfg: Config, es: seq<Event>)
    requires Run(cfg, Init(cfg), es).Some?
    ensures forall y :: y in Run(cfg, Init(cfg), es).value.yielded ==>
              && (cfg.absolute.Some? ==> y.checked < cfg.absolute.value)
              && (cfg.maxDuration > 0.0 ==> y.checked < cfg.start + cfg.maxDuration)
  {
    Reachable(cfg, es);
    var s := Run(cfg, Init(cfg), es).value;
    forall y | y in s.yielded
      ensures InTime(cfg, y)
    {
      var i :| 0 <= i < |s.yielded| && s.yielded[i] == y;
    }
  }

  /** A deadline is never blamed before it has passed, and a stall only when a stall timeout is on. */
  lemma FailuresAreJustified(cfg: Config, es: seq<Event>)
    requires Run(cfg, Init(cfg), es).Some?
    ensures var s := Run(cfg, Init(cfg), es).value;
            && (s.gen == Exited(Raised(BudgetExceeded)) ==> Reached(cfg.absolute, s.clock))
            && (s.gen == Exited(Raised(StreamDeadline)) ==> Reached(cfg.Duration(), s.clock))
            && (s.gen == Exited(Raised(Stalled)) ==> StallTimeout(cfg, s.yielded) > 0.0 && Reached(s.deadline, s.clock))
  {
    Reachable(cfg, es);
    TimingReachable(cfg, es);
  }

  /**
   * What a wait that is over fails with, if an item came or not: the turn's budget if its deadline has been
   * reached, the stream's duration if only that has; anything else only when neither has.
   */
  lemma DeadlineBlamed(cfg: Config, s: State, e: Event)
    requires Enabled(cfg, s, e) && (e.Take? || e.Empty?)
    ensures var over := cfg.absolute.Some? && e.now >= cfg.absolute.value;
            var long := cfg.maxDuration > 0.0 && e.now >= cfg.start + cfg.maxDuration;
            var gen := Apply(cfg, s, e).gen;
            && (gen == Exited(Raised(BudgetExceeded)) <==> over)
            && (gen == Exited(Raised(StreamDeadline)) <==> !over && long)
  {
  }

  // ---------- the stall deadline ----------

  /** The provider has sent nothing but keepalives. */
  predicate SaidNothing(ys: seq<Yield>) {
    forall i :: 0 <= i < |ys| ==> Silent(ys[i].chunk)
  }

  /** What a wait may take: the idle timeout takes over once the provider has said something. */
  function StallTimeout(cfg: Config, ys: seq<Yield>): real {
    if SaidNothing(ys) then cfg.firstByte else cfg.idle
  }

  /** The last chunk handed out was a keepalive. */
  predicate KeptAlive(ys: seq<Yield>) {
    ys != [] && Silent(ys[|ys| - 1].chunk)
  }

  /** The stall deadline stands from the first wait on, and anew from the wait after each active chunk. */
  predicate Timing(cfg: Config, s: State) {
    && (s.first <==> SaidNothing(s.yielded))
    && (s.gen.Suspended? ==> s.yielded != [])
    && (s.gen.Blocked? ==> (s.deadline.Some? <==> StallTimeout(cfg, s.yielded) > 0.0))
    && (s.gen.Top? || s.gen.Suspended? ==>
          (s.deadline.Some? <==> StallTimeout(cfg, s.yielded) > 0.0 && KeptAlive(s.yielded)))
  }

  lemma StepKeepsTiming(cfg: Config, s: State, e: Event)
    requires Timing(cfg, s) && Enabled(cfg, s, e)
    ensures Timing(cfg, Apply(cfg, s, e))
  {
    var s' := Apply(cfg, s, e);
    if |s'.yielded| > |s.yielded| {
      var y := s'.yielded[|s.yielded|];
      ActiveUnlessSilent(y.chunk);
      assert s'.yielded == s.yielded + [y];
      OneMoreYield(s.yielded, y);
    } else {
      assert s'.yielded == s.yielded;
    }
  }

  lemma OneMoreYield(ys: seq<Yield>, y: Yield)
    ensures SaidNothing(ys + [y]) <==> SaidNothing(ys) && Silent(y.chunk)
    ensures KeptAlive(ys + [y]) <==> Silent(y.chunk)
  {
    assert forall i :: 0 <= i < |ys| ==> (ys + [y])[i] == ys[i];
    assert (ys + [y])[|ys|] == y;
  }

  lemma {:induction false} RunKeepsTiming(cfg: Config, s: State, es: seq<Event>)
    requires Timing(cfg, s) && Run(cfg, s, es).Some?
    ensures Timing(cfg, Run(cfg, s, es).value)
    decreases |es|
  {
    if es != [] {
      StepKeepsTiming(cfg, s, es[0]);
      RunKeepsTiming(cfg, Apply(cfg, s, es[0]), es[1..]);
    }
  }

  lemma TimingReachable(cfg: Config, es: seq<Event>)
    requires Run(cfg, Init(cfg), es).Some?
    ensures Timing(cfg, Run(cfg, Init(cfg), es).value)
  {
    RunKeepsTiming(cfg, Init(cfg), es);
  }

  /**
   * What a wait that begins at `now` is given: the first-byte timeout until the provider has said something
   * and the idle timeout from then on, counted from the first wait and from the one after each active
   * chunk; a keepalive leaves the deadline as it was. The wait ends at the earliest deadline there is.
   */
  lemma WaitsUntil(cfg: Config, es: seq<Event>, now: real)
    requires Run(cfg, Init(cfg), es).Some? && Enabled(cfg, Run(cfg, Init(cfg), es).value, Arm(now))
    ensures var s := Run(cfg, Init(cfg), es).value;
            var s', timeout := Apply(cfg, s, Arm(now)), if SaidNothing(s.yielded) then cfg.firstByte else cfg.idle;
            && (timeout <= 0.0 ==> s'.deadline == None)
            && (timeout > 0.0 && !KeptAlive(s.yielded) ==> s'.deadline == Some(now + timeout))
            && (timeout > 0.0 && KeptAlive(s.yielded) ==> s.deadline.Some? && s'.deadline == s.deadline)
            && s'.gen.Blocked? && IsEarliest(s'.gen.until, s'.deadline, cfg.absolute,
                                             if cfg.maxDuration > 0.0 then Some(cfg.start + cfg.maxDuration) else None)
  {
    TimingReachable(cfg, es);
  }

  /** `d` is the earliest of three deadlines, if there are any. */
  predicate IsEarliest(d: Option<real>, a: Option<real>, b: Option<real>, c: Option<real>) {
    && (d == a || d == b || d == c)
    && (d == None ==> a == None && b == None && c == None)
    && (d.Some? ==> forall x :: x in {a, b, c} ==> x.None? || d.value <= x.value)
  }

  /** No activity among the chunks yielded from index `n` on. */
  predicate OnlyKeepalives(ys: seq<Yield>, n: nat) {
    forall i :: n <= i < |ys| ==> Silent(ys[i].chunk)
  }

  lemma {:induction false} YieldsGrow(cfg: Config, s: State, es: seq<Event>)
    requires Run(cfg, s, es).Some?
    ensures s.yielded <= Run(cfg, s, es).value.yielded
    decreases |es|
  {
    if es != [] {
      assert s.yielded <= Apply(cfg, s, es[0]).yielded;
      YieldsGrow(cfg, Apply(cfg, s, es[0]), es[1..]);
    }
  }

  /**
   * Keepalives never push the stall deadline back: once set it stays put for as long as nothing
   * but keepalives is yielded, and none of those is yielded once it has passed.
   */
  lemma {:induction false} KeepalivesDoNotExtend(cfg: Config, s: State, es: seq<Event>)
    requires s.deadline.Some? && Run(cfg, s, es).Some?
    requires OnlyKeepalives(Run(cfg, s, es).value.yielded, |s.yielded|)
    ensures var s' := Run(cfg, s, es).value;
            && s'.deadline == s.deadline
            && forall i :: |s.yielded| <= i < |s'.yielded| ==> s'.yielded[i].stallChecked < s.deadline.value
    decreases |es|
  {
    if es != [] {
      var s1 := Apply(cfg, s, es[0]);
      YieldsGrow(cfg, s1, es[1..]);
      var s' := Run(cfg, s, es).value;
      assert s1.yielded <= s'.yielded;
      assert s1.deadline == s.deadline by {
        if |s1.yielded| > |s.yielded| {
          ActiveUnlessSilent(s'.yielded[|s.yielded|].chunk);
          assert Silent(s'.yielded[|s.yielded|].chunk);
        }
      }
      KeepalivesDoNotExtend(cfg, s1, es[1..]);
    }
  }

  /** Chunks the pump can still pull once it has been cancelled. */
  function PullsLeft(s: State): nat {
    match s.pump
    case Pulling => 1
    case Holding(_) => 0
    case Offering(item) => if s.queue == [] && item.ChunkItem? then 1 else 0
    case Stopped => 0
  }

  /** Steps the pump can still take once it has been cancelled. */
  function StepsLeft(s: State): nat {
    match s.pump
    case Pulling => 2
    case Holding(_) => 1
    case Offering(item) => if s.queue == [] then 3 else 2
    case Stopped => 0
  }

  function CountPumpEvents(es: seq<Event>): nat {
    if es == [] then 0 else (if IsPumpEvent(es[0]) then 1 else 0) + CountPumpEvents(es[1..])
  }

  /**
   * After the generator has finished, the pump pulls at most one more chunk and stops within
   * three of its own steps.
   */
  lemma {:induction false} PumpStopsAfterExit(cfg: Config, s: State, es: seq<Event>)
    requires s.cancelled && s.gen.Exited? && Run(cfg, s, es).Some?
    ensures var s' := Run(cfg, s, es).value;
            && s'.pulled <= s.pulled + PullsLeft(s) <= s.pulled + 1
            && CountPumpEvents(es) <= StepsLeft(s) <= 3
            && s'.gen == s.gen && s'.yielded == s.yielded
    decreases |es|
  {
    if es != [] {
      PumpStopsAfterExit(cfg, Apply(cfg, s, es[0]), es[1..]);
    }
  }

  // ---------- the moment a chunk is handed out ----------

  /** After `es` the generator takes a chunk and hands it out when a deadline has been reached. */
  predicate HandsOutLate(cfg: Config, es: seq<Event>, e: Event) {
    && e.Take? && Run(cfg, Init(cfg), es).Some?
    && var s := Run(cfg, Init(cfg), es).value;
    && Enabled(cfg, s, e) && |Apply(cfg, s, e).yielded| > |s.yielded|
    && Reached(cfg.StreamLimit(), e.later)
  }

  /** There is a chunk to hand out, and a deadline, and the earliest deadline lies after the start. */
  predicate CanBeLate(cfg: Config) {
    cfg.script != [] && cfg.StreamLimit().Some? && cfg.StreamLimit().value > cfg.start
  }

  /**
   * The deadlines are checked on a clock reading taken before the chunk is handed out: whatever the
   * configuration, some run hands a chunk out at a deadline exactly when there is a chunk and the
   * earliest deadline lies after the start.
   */
  lemma HandedOutLate(cfg: Config)
    ensures (exists es, e :: HandsOutLate(cfg, es, e)) <==> CanBeLate(cfg)
  {
    if CanBeLate(cfg) {
      var es, e := LateRun(cfg);
      assert HandsOutLate(cfg, es, e);
    }
    if es, e :| HandsOutLate(cfg, es, e) {
      LateMeans(cfg, es, e);
    }
  }

  lemma {:induction false} ClockGrows(cfg: Config, s: State, es: seq<Event>)
    requires Run(cfg, s, es).Some?
    ensures Run(cfg, s, es).value.clock >= s.clock
    decreases |es|
  {
    if es != [] {
      ClockGrows(cfg, Apply(cfg, s, es[0]), es[1..]);
    }
  }

  lemma LateMeans(cfg: Config, es: seq<Event>, e: Event)
    requires HandsOutLate(cfg, es, e)
    ensures CanBeLate(cfg)
  {
    var s := Run(cfg, Init(cfg), es).value;
    ClockGrows(cfg, Init(cfg), es);
    Reachable(cfg, es);
    StepKeepsInv(cfg, s, e);
  }

  /** When the generator starts to wait, late enough for its stall timeout not to expire before the deadline. */
  function ArmTime(cfg: Config): real
    requires CanBeLate(cfg)
  {
    var limit := cfg.StreamLimit().value;
    if cfg.firstByte > 0.0 && limit - cfg.firstByte / 2.0 > cfg.start then limit - cfg.firstByte / 2.0 else cfg.start
  }

  /** The pump delivers the first chunk; the generator checks it just before the deadline and hands it out at the deadline. */
  lemma LateRun(cfg: Config) returns (es: seq<Event>, e: Event)
    requires CanBeLate(cfg)
    ensures HandsOutLate(cfg, es, e)
  {
    var m := ArmTime(cfg);
    es, e := [Pull, CheckFlag, Offer, Arm(m)], Take(m, cfg.StreamLimit().value);
    var s4 := FirstWait(cfg, m);
    LateTake(cfg, s4, m);
  }

  lemma FirstWait(cfg: Config, m: real) returns (s4: State)
    requires cfg.script != [] && m >= cfg.start
    ensures Run(cfg, Init(cfg), [Pull, CheckFlag, Offer, Arm(m)]) == Some(s4)
    ensures s4.gen.Blocked? && s4.queue == [ChunkItem(cfg.script[0])] && s4.clock == m && s4.yielded == []
    ensures s4.deadline == if cfg.firstByte > 0.0 then Some(m + cfg.firstByte) else None
  {
    var s1 := Apply(cfg, Init(cfg), Pull);
    var s2 := Apply(cfg, s1, CheckFlag);
    var s3 := Apply(cfg, s2, Offer);
    s4 := Apply(cfg, s3, Arm(m));
    RunFirst(cfg, s3, Arm(m), []);
    RunFirst(cfg, s2, Offer, [Arm(m)]);
    RunFirst(cfg, s1, CheckFlag, [Offer] + [Arm(m)]);
    RunFirst(cfg, Init(cfg), Pull, [CheckFlag] + ([Offer] + [Arm(m)]));
    assert [Arm(m)] + [] == [Arm(m)];
    assert [Pull] + ([CheckFlag] + ([Offer] + [Arm(m)])) == [Pull, CheckFlag, Offer, Arm(m)];
  }

  lemma RunFirst(cfg: Config, s: State, e: Event, es: seq<Event>)
    requires Enabled(cfg, s, e)
    ensures Run(cfg, s, [e] + es) == Run(cfg, Apply(cfg, s, e), es)
  {
    assert ([e] + es)[1..] == es;
  }

  lemma LateTake(cfg: Config, s: State, m: real)
    requires CanBeLate(cfg) && m == ArmTime(cfg)
    requires s.gen.Blocked? && s.queue == [ChunkItem(cfg.script[0])] && s.clock == m && s.yielded == []
    requires s.deadline == if cfg.firstByte > 0.0 then Some(m + cfg.firstByte) else None
    ensures var e := Take(m, cfg.StreamLimit().value);
            Enabled(cfg, s, e) && |Apply(cfg, s, e).yielded| > |s.yielded|
  {
    assert !Reached(cfg.absolute, m) && !Reached(cfg.Duration(), m);
  }
}
