/** `llm.stream`: one or more provider attempts, each under the watchdog, behind one generator. */
module Streaming {
  import opened Common
  import opened Chunks
  import opened ToolCalls
  import Watchdog

  /** How an attempt ends; `late` says the absolute deadline has passed by then. */
  datatype Ending = Completed | Failed(transient: bool, late: bool)

  /** One attempt: whether the budget was gone before it, what its watchdog yields, how it ends. */
  datatype Attempt = Attempt(expired: bool, chunks: seq<Chunk>, ending: Ending)

  type Provider = nat -> Attempt

  datatype Output =
    | Norm(attempt: nat, chunk: Chunk)
    | RetryReset
    | Final(calls: seq<Entry>, finish: string)

  datatype End = Finished | OutOfBudget | ProviderError(transient: bool)

  datatype Result = Result(outputs: seq<Output>, end: End, requests: nat)

  // ---------- one attempt ----------

  /** The normalised chunks of attempt `k`; chunks without choices are swallowed. */
  function Emitted(k: nat, cs: seq<Chunk>): seq<Output> {
    if cs == [] then []
    else Emitted(k, cs[..|cs| - 1]) + if cs[|cs| - 1].hasChoices then [Norm(k, cs[|cs| - 1])] else []
  }

  predicate Visible(cs: seq<Chunk>) {
    exists i :: 0 <= i < |cs| && cs[i].hasChoices && cs[i].text != ""
  }

  function TextIn(cs: seq<Chunk>): string {
    if cs == [] then ""
    else TextIn(cs[..|cs| - 1]) + if cs[|cs| - 1].hasChoices then cs[|cs| - 1].text else ""
  }

  function Fragments(cs: seq<Chunk>): seq<Fragment> {
    if cs == [] then []
    else Fragments(cs[..|cs| - 1]) + if cs[|cs| - 1].hasChoices then cs[|cs| - 1].calls else []
  }

  function LastFinish(cs: seq<Chunk>): string {
    if cs == [] then ""
    else if cs[|cs| - 1].hasChoices && cs[|cs| - 1].finish != "" then cs[|cs| - 1].finish
    else LastFinish(cs[..|cs| - 1])
  }

  // ---------- the retry protocol ----------

  /** May attempt `k` be followed by another one? */
  predicate Retries(a: Attempt, replayVisible: bool, maxRetries: int, k: nat) {
    && !a.expired && a.ending.Failed? && !a.ending.late
    && (!Visible(a.chunks) || replayVisible) && a.ending.transient && k < maxRetries
  }

  /** Everything the generator yields from attempt `k` on, and how it ends. */
  function Outcome(p: Provider, replayVisible: bool, maxRetries: int, k: nat): Result
    decreases maxRetries - k
  {
    var a := p(k);
    var base := Emitted(k, a.chunks);
    if a.expired then Result([], OutOfBudget, 0)
    else if a.ending.Completed? then
      Result(base + [Final(FinalCalls(AddAll(map[], Fragments(a.chunks))), LastFinish(a.chunks))], Finished, 1)
    else if a.ending.late then Result(base, OutOfBudget, 1)
    else if Retries(a, replayVisible, maxRetries, k) then
      var rest := Outcome(p, replayVisible, maxRetries, k + 1);
      Result(base + ([RetryReset] + rest.outputs), rest.end, 1 + rest.requests)
    else Result(base, ProviderError(a.ending.transient), 1)
  }

  lemma {:induction false} AddAllConcat(acc: Accum, fs: seq<Fragment>, gs: seq<Fragment>)
    ensures AddAll(acc, fs + gs) == AddAll(AddAll(acc, fs), gs)
    decreases |gs|
  {
    if gs == [] {
      assert fs + gs == fs;
    } else {
      var init, last := gs[..|gs| - 1], gs[|gs| - 1];
      AddAllConcat(acc, fs, init);
      assert init + [last] == gs;
      assert (fs + init) + [last] == fs + gs;
    }
  }

  /** The body of the `for` loop over one attempt's chunks. */
  method Relay(k: nat, chunks: seq<Chunk>)
    returns (outputs: seq<Output>, visible: bool, acc: Accum, finish: string)
    ensures outputs == Emitted(k, chunks)
    ensures visible == Visible(chunks)
    ensures acc == AddAll(map[], Fragments(chunks))
    ensures finish == LastFinish(chunks)
  {
    outputs, visible, acc, finish := [], false, map[], "";
    for i := 0 to |chunks|
      invariant outputs == Emitted(k, chunks[..i])
      invariant visible == Visible(chunks[..i])
      invariant acc == AddAll(map[], Fragments(chunks[..i]))
      invariant finish == LastFinish(chunks[..i])
    {
      var c := chunks[i];
      assert chunks[..i + 1][..i] == chunks[..i];
      VisibleNext(chunks, i);
      AddAllConcat(map[], Fragments(chunks[..i]), c.calls);
      acc := AbsorbChunk(c, acc);
      if !c.hasChoices {
        assert Fragments(chunks[..i + 1]) == Fragments(chunks[..i]);
        assert Emitted(k, chunks[..i + 1]) == Emitted(k, chunks[..i]);
        continue;
      }
      if c.finish != "" {
        finish := c.finish;
      }
      if c.text != "" {
        visible := true;
      }
      outputs := outputs + [Norm(k, c)];
    }
    assert chunks[..|chunks|] == chunks;
  }

  lemma VisibleNext(cs: seq<Chunk>, i: nat)
    requires i < |cs|
    ensures Visible(cs[..i + 1]) <==> Visible(cs[..i]) || (cs[i].hasChoices && cs[i].text != "")
  {
    if Visible(cs[..i]) {
      var j :| 0 <= j < i && cs[..i][j].hasChoices && cs[..i][j].text != "";
      assert cs[..i + 1][j] == cs[..i][j];
    }
    if cs[i].hasChoices && cs[i].text != "" {
      assert cs[..i + 1][i] == cs[i];
    }
    if Visible(cs[..i + 1]) {
      var j :| 0 <= j < i + 1 && cs[..i + 1][j].hasChoices && cs[..i + 1][j].text != "";
      assert j < i ==> cs[..i][j] == cs[j];
    }
  }

  /** What follows attempt `k`: the generator ends, or tries again. */
  datatype Verdict = Ends(end: End) | Again

  function Judge(a: Attempt, replayVisible: bool, maxRetries: int, k: nat): Verdict {
    if a.expired then Ends(OutOfBudget)
    else if a.ending.Completed? then Ends(Finished)
    else if a.ending.late then Ends(OutOfBudget)
    else if Retries(a, replayVisible, maxRetries, k) then Again
    else Ends(ProviderError(a.ending.transient))
  }

  function AttemptOutputs(a: Attempt, k: nat): seq<Output> {
    if a.expired then []
    else if a.ending.Completed? then
      Emitted(k, a.chunks) + [Final(FinalCalls(AddAll(map[], Fragments(a.chunks))), LastFinish(a.chunks))]
    else Emitted(k, a.chunks)
  }

  /** One pass of the generator's `while` loop. */
  method RunAttempt(a: Attempt, replayVisible: bool, maxRetries: int, k: nat) returns (outputs: seq<Output>, verdict: Verdict)
    ensures outputs == AttemptOutputs(a, k)
    ensures verdict == Judge(a, replayVisible, maxRetries, k)
  {
    if a.expired {
      return [], Ends(OutOfBudget);
    }
    var base, visible, acc, finish := Relay(k, a.chunks);
    if a.ending.Completed? {
      return base + [Final(FinalCalls(acc), finish)], Ends(Finished);
    }
    if a.ending.late {
      return base, Ends(OutOfBudget);
    }
    if (!visible || replayVisible) && a.ending.transient && k < maxRetries {
      return base, Again;
    }
    return base, Ends(ProviderError(a.ending.transient));
  }

  /** The generator, run to its end. */
  method Stream(p: Provider, replayVisible: bool, maxRetries: int) returns (r: Result)
    ensures r == Outcome(p, replayVisible, maxRetries, 0)
  {
    var attempt: nat := 0;
    var outputs: seq<Output> := [];
    var requests: nat := 0;
    while true
      invariant ContinuesAs(outputs, requests, Outcome(p, replayVisible, maxRetries, attempt),
                            Outcome(p, replayVisible, maxRetries, 0))
      decreases maxRetries - attempt
    {
      var outs, verdict := RunAttempt(p(attempt), replayVisible, maxRetries, attempt);
      if verdict.Ends? {
        return Result(outputs + outs, verdict.end, requests + if p(attempt).expired then 0 else 1);
      }
      outputs := outputs + (outs + [RetryReset]);
      requests := requests + 1;
      attempt := attempt + 1;
    }
  }

  /** What was emitted so far, followed by `rest`, is `whole`. */
  predicate ContinuesAs(outputs: seq<Output>, requests: nat, rest: Result, whole: Result) {
    whole == Result(outputs + rest.outputs, rest.end, requests + rest.requests)
  }

  /** Provider requests never exceed `max_retries + 1`; every retry is announced. */
  lemma {:induction false} RequestsBounded(p: Provider, replayVisible: bool, maxRetries: int, k: nat)
    ensures var r := Outcome(p, replayVisible, maxRetries, k);
            && r.requests <= (if k < maxRetries then maxRetries - k else 0) + 1
            && Resets(r.outputs) <= r.requests <= Resets(r.outputs) + 1
            && (r.end == Finished ==> r.requests == Resets(r.outputs) + 1)
    decreases maxRetries - k
  {
    var a := p(k);
    EmittedHasNoReset(k, a.chunks);
    var base := Emitted(k, a.chunks);
    if Retries(a, replayVisible, maxRetries, k) {
      RequestsBounded(p, replayVisible, maxRetries, k + 1);
      ResetsAfterRetry(base, Outcome(p, replayVisible, maxRetries, k + 1).outputs);
    }
  }

  lemma ResetsAfterRetry(base: seq<Output>, rest: seq<Output>)
    ensures Resets(base + ([RetryReset] + rest)) == Resets(base) + (1 + Resets(rest))
  {
    ResetsConcat([RetryReset], rest);
    ResetsConcat(base, [RetryReset] + rest);
  }

  // ---------- what a consumer sees ----------

  function Resets(outs: seq<Output>): nat {
    if outs == [] then 0 else Resets(outs[..|outs| - 1]) + if outs[|outs| - 1].RetryReset? then 1 else 0
  }

  /** The text a consumer holds that appends deltas and clears on `retry_reset`. */
  function Kept(outs: seq<Output>): string {
    if outs == [] then ""
    else match outs[|outs| - 1]
      case Norm(_, c) => Kept(outs[..|outs| - 1]) + c.text
      case RetryReset => ""
      case Final(_, _) => Kept(outs[..|outs| - 1])
  }

  /** What one more output does to the resets counted and the text held. */
  lemma OneMore(outs: seq<Output>, i: nat)
    requires i < |outs|
    ensures Resets(outs[..i + 1]) == Resets(outs[..i]) + if outs[i].RetryReset? then 1 else 0
    ensures Kept(outs[..i + 1]) ==
            match outs[i]
            case Norm(_, c) => Kept(outs[..i]) + c.text
            case RetryReset => ""
            case Final(_, _) => Kept(outs[..i])
  {
    assert outs[..i + 1][..i] == outs[..i];
  }

  /** Nothing was shown before a reset when nothing shown is retried. */
  lemma NothingBeforeReset(outs: seq<Output>, j: nat, i: nat)
    requires NothingShownIsRetried(outs) && i < |outs| && outs[i].RetryReset?
    ensures !(j < i && Shows(outs[j]))
  {
  }

  /** A delta belongs to the attempt counted so far. */
  lemma DeltaOfAttempt(outs: seq<Output>, i: nat, attempt: nat)
    requires Tagged(outs, 0) && i < |outs| && outs[i].Norm? && attempt == Resets(outs[..i])
    ensures outs[i].attempt == attempt
  {
    assert TaggedAt(outs, 0, i);
  }

  /** All the text ever emitted. */
  function AllText(outs: seq<Output>): string {
    if outs == [] then ""
    else AllText(outs[..|outs| - 1]) + if outs[|outs| - 1].Norm? then outs[|outs| - 1].chunk.text else ""
  }

  /** The text emitted by attempt `a`. */
  function TextOf(outs: seq<Output>, a: nat): string {
    if outs == [] then ""
    else
      var last := outs[|outs| - 1];
      TextOf(outs[..|outs| - 1], a) + if last.Norm? && last.attempt == a then last.chunk.text else ""
  }

  /** Every delta carries the number of the attempt in progress, counting from `k`. */
  predicate Tagged(outs: seq<Output>, k: nat) {
    forall i :: 0 <= i < |outs| ==> TaggedAt(outs, k, i)
  }

  predicate TaggedAt(outs: seq<Output>, k: nat, i: nat)
    requires i < |outs|
  {
    outs[i].Norm? ==> outs[i].attempt == k + Resets(outs[..i]) && outs[i].chunk.hasChoices
  }

  predicate Shows(o: Output) { o.Norm? && o.chunk.text != "" }

  /** No attempt that showed text was ever retried. */
  predicate NothingShownIsRetried(outs: seq<Output>) {
    forall i, j :: 0 <= i < j < |outs| && Shows(outs[i]) ==> !outs[j].RetryReset?
  }

  lemma {:induction false} EmittedHasNoReset(k: nat, cs: seq<Chunk>)
    ensures forall i :: 0 <= i < |Emitted(k, cs)| ==>
              Emitted(k, cs)[i].Norm? && Emitted(k, cs)[i].attempt == k && Emitted(k, cs)[i].chunk.hasChoices
    ensures Resets(Emitted(k, cs)) == 0
    ensures !Visible(cs) ==> forall i :: 0 <= i < |Emitted(k, cs)| ==> !Shows(Emitted(k, cs)[i])
  {
    if cs != [] {
      var init, last := cs[..|cs| - 1], cs[|cs| - 1];
      EmittedHasNoReset(k, init);
      VisibleNext(cs, |cs| - 1);
      assert cs[..|cs| - 1 + 1] == cs;
      if last.hasChoices {
        assert Emitted(k, cs)[..|Emitted(k, cs)| - 1] == Emitted(k, init);
      } else {
        assert Emitted(k, cs) == Emitted(k, init);
      }
    }
  }

  lemma {:induction false} ResetsConcat(a: seq<Output>, b: seq<Output>)
    ensures Resets(a + b) == Resets(a) + Resets(b)
  {
    if b == [] {
      assert a + b == a;
    } else {
      ResetsConcat(a, b[..|b| - 1]);
      assert (a + b)[..|a + b| - 1] == a + b[..|b| - 1];
    }
  }

  lemma TaggedConcat(a: seq<Output>, b: seq<Output>, k: nat)
    requires Tagged(a, k) && Tagged(b, k + Resets(a))
    ensures Tagged(a + b, k)
  {
    forall i: nat | i < |a + b| ensures TaggedAt(a + b, k, i) {
      if i < |a| {
        assert TaggedAt(a, k, i);
        assert (a + b)[..i] == a[..i];
      } else {
        assert TaggedAt(b, k + Resets(a), i - |a|);
        assert (a + b)[..i] == a + b[..i - |a|];
        ResetsConcat(a, b[..i - |a|]);
      }
    }
  }

  lemma EmittedTagged(k: nat, cs: seq<Chunk>)
    ensures Tagged(Emitted(k, cs), k)
  {
    EmittedHasNoReset(k, cs);
    var outs := Emitted(k, cs);
    forall i: nat | i < |outs| ensures TaggedAt(outs, k, i) {
      assert outs == outs[..i] + outs[i..];
      ResetsConcat(outs[..i], outs[i..]);
    }
  }

  lemma {:induction false} OutputsTagged(p: Provider, replayVisible: bool, maxRetries: int, k: nat)
    ensures Tagged(Outcome(p, replayVisible, maxRetries, k).outputs, k)
    decreases maxRetries - k
  {
    var a := p(k);
    var base := Emitted(k, a.chunks);
    EmittedTagged(k, a.chunks);
    EmittedHasNoReset(k, a.chunks);
    if Retries(a, replayVisible, maxRetries, k) {
      OutputsTagged(p, replayVisible, maxRetries, k + 1);
      var rest := Outcome(p, replayVisible, maxRetries, k + 1).outputs;
      assert [RetryReset][..0] == [];
      assert Resets([RetryReset]) == 1;
      TaggedConcat([RetryReset], rest, k);
      TaggedConcat(base, [RetryReset] + rest, k);
    } else if !a.expired && a.ending.Completed? {
      TaggedConcat(base, [Final(FinalCalls(AddAll(map[], Fragments(a.chunks))), LastFinish(a.chunks))], k);
    }
  }

  lemma TaggedPrefix(outs: seq<Output>, k: nat, n: nat)
    requires Tagged(outs, k) && n <= |outs|
    ensures Tagged(outs[..n], k)
  {
    forall i: nat | i < n ensures TaggedAt(outs[..n], k, i) {
      assert TaggedAt(outs, k, i);
      assert outs[..n][..i] == outs[..i];
    }
  }

  /** A consumer that clears on `retry_reset` holds the text of the attempt in progress, only. */
  lemma {:induction false} KeptIsTheLastAttempt(outs: seq<Output>, k: nat)
    requires Tagged(outs, k)
    ensures Kept(outs) == TextOf(outs, k + Resets(outs))
    ensures forall a :: a > k + Resets(outs) ==> TextOf(outs, a) == ""
  {
    if outs != [] {
      var n := |outs| - 1;
      TaggedPrefix(outs, k, n);
      assert TaggedAt(outs, k, n);
      KeptIsTheLastAttempt(outs[..n], k);
    }
  }

  lemma {:induction false} NothingShownUnlessReplaying(p: Provider, maxRetries: int, k: nat)
    ensures NothingShownIsRetried(Outcome(p, false, maxRetries, k).outputs)
    decreases maxRetries - k
  {
    var a := p(k);
    EmittedHasNoReset(k, a.chunks);
    if Retries(a, false, maxRetries, k) {
      NothingShownUnlessReplaying(p, maxRetries, k + 1);
      var base := Emitted(k, a.chunks);
      var rest := Outcome(p, false, maxRetries, k + 1).outputs;
      var outs := base + ([RetryReset] + rest);
      forall i | 0 <= i <= |base| ensures !Shows(outs[i]) {
        if i < |base| { assert outs[i] == base[i]; }
      }
      forall i, j | 0 <= i < j < |outs| && Shows(outs[i]) ensures !outs[j].RetryReset? {
        assert outs[i] == rest[i - |base| - 1] && outs[j] == rest[j - |base| - 1];
      }
    }
  }

  lemma {:induction false} KeptIsEverything(outs: seq<Output>)
    requires NothingShownIsRetried(outs)
    ensures Kept(outs) == AllText(outs)
  {
    if outs != [] {
      var n := |outs| - 1;
      KeptIsEverything(outs[..n]);
      if outs[n].RetryReset? {
        assert forall i :: 0 <= i < n ==> !Shows(outs[i]);
        NothingShown(outs[..n]);
      }
    }
  }

  lemma {:induction false} NothingShown(outs: seq<Output>)
    requires forall i :: 0 <= i < |outs| ==> !Shows(outs[i])
    ensures AllText(outs) == ""
  {
    if outs != [] { NothingShown(outs[..|outs| - 1]); }
  }

  /**
   * Wherever the consumer stops, a consumer that clears on `retry_reset` holds exactly the text of
   * the attempt in progress; with replay off that is also all the text ever emitted.
   */
  lemma OneAttemptIsSeen(p: Provider, replayVisible: bool, maxRetries: int, n: nat)
    requires n <= |Outcome(p, replayVisible, maxRetries, 0).outputs|
    ensures var seen := Outcome(p, replayVisible, maxRetries, 0).outputs[..n];
            && Kept(seen) == TextOf(seen, Resets(seen))
            && (!replayVisible ==> AllText(seen) == Kept(seen))
  {
    var outs := Outcome(p, replayVisible, maxRetries, 0).outputs;
    OutputsTagged(p, replayVisible, maxRetries, 0);
    TaggedPrefix(outs, 0, n);
    KeptIsTheLastAttempt(outs[..n], 0);
    if !replayVisible {
      NothingShownUnlessReplaying(p, maxRetries, 0);
      KeptIsEverything(outs[..n]);
    }
  }

  // ---------- the final chunk ----------

  lemma {:induction false} KeptEmitted(k: nat, cs: seq<Chunk>)
    ensures Kept(Emitted(k, cs)) == TextIn(cs)
  {
    if cs != [] {
      KeptEmitted(k, cs[..|cs| - 1]);
      if cs[|cs| - 1].hasChoices {
        assert Emitted(k, cs)[..|Emitted(k, cs)| - 1] == Emitted(k, cs[..|cs| - 1]);
      } else {
        assert Emitted(k, cs) == Emitted(k, cs[..|cs| - 1]);
      }
    }
  }

  lemma {:induction false} KeptAfterReset(a: seq<Output>, b: seq<Output>)
    ensures Kept(a + ([RetryReset] + b)) == Kept(b)
  {
    var s := a + ([RetryReset] + b);
    if b == [] {
      assert s == a + [RetryReset];
    } else {
      KeptAfterReset(a, b[..|b| - 1]);
      assert s[..|s| - 1] == a + ([RetryReset] + b[..|b| - 1]);
    }
  }

  /** `o` is the final chunk of a completed attempt `a` whose text is `kept`. */
  predicate Closes(p: Provider, o: Output, a: nat, kept: string) {
    && !p(a).expired && p(a).ending.Completed?
    && o == Final(FinalCalls(AddAll(map[], Fragments(p(a).chunks))), LastFinish(p(a).chunks))
    && kept == TextIn(p(a).chunks)
  }

  /** The text and the calls are those of the completed attempt `a`, whole. */
  predicate MadeBy(p: Provider, a: nat, text: string, calls: seq<Entry>) {
    && !p(a).expired && p(a).ending.Completed?
    && text == TextIn(p(a).chunks) && calls == FinalCalls(AddAll(map[], Fragments(p(a).chunks)))
  }

  /** The final chunk of a finished stream and the text kept by then are made by the attempt in progress. */
  lemma FinishedIsMadeBy(p: Provider, replayVisible: bool, maxRetries: int)
    ensures var r := Outcome(p, replayVisible, maxRetries, 0);
            r.end == Finished ==>
              && r.outputs != [] && r.outputs[|r.outputs| - 1].Final?
              && MadeBy(p, Resets(r.outputs), Kept(r.outputs), r.outputs[|r.outputs| - 1].calls)
  {
    var a := FinalClosesOneAttempt(p, replayVisible, maxRetries, 0);
  }

  /**
   * A final chunk is the last thing yielded, and it and the text kept by then come from one
   * completed attempt: tool calls are assembled from that attempt's fragments alone.
   */
  lemma {:induction false} FinalClosesOneAttempt(p: Provider, replayVisible: bool, maxRetries: int, k: nat)
    returns (a: nat)
    ensures var r := Outcome(p, replayVisible, maxRetries, k);
            && (r.end == Finished ==> r.outputs != [] && Closes(p, r.outputs[|r.outputs| - 1], a, Kept(r.outputs)))
            && (r.end == Finished ==> k <= a && a == k + Resets(r.outputs))
            && (forall i :: 0 <= i < |r.outputs| && r.outputs[i].Final? ==> r.end == Finished && i == |r.outputs| - 1)
    decreases maxRetries - k
  {
    a := k;
    EmittedHasNoReset(k, p(k).chunks);
    KeptEmitted(k, p(k).chunks);
    var base := Emitted(k, p(k).chunks);
    var r := Outcome(p, replayVisible, maxRetries, k);
    if Retries(p(k), replayVisible, maxRetries, k) {
      a := FinalClosesOneAttempt(p, replayVisible, maxRetries, k + 1);
      AfterRetry(base, Outcome(p, replayVisible, maxRetries, k + 1).outputs, r.outputs);
    } else if !p(k).expired && p(k).ending.Completed? {
      FinalAfter(base, r.outputs);
    }
  }

  /** A final chunk after deltas alone: nothing was cleared, and no other output is final. */
  lemma FinalAfter(base: seq<Output>, all: seq<Output>)
    requires |all| == |base| + 1 && all[..|base|] == base && all[|base|].Final? && Resets(base) == 0
    requires forall i :: 0 <= i < |base| ==> base[i].Norm?
    ensures Kept(all) == Kept(base) && Resets(all) == 0
    ensures forall i :: 0 <= i < |all| && all[i].Final? ==> i == |all| - 1
  {
    assert forall i :: 0 <= i < |base| ==> all[i] == base[i];
  }

  /** What a retry puts before the outputs of the attempts after it. */
  lemma AfterRetry(base: seq<Output>, rest: seq<Output>, all: seq<Output>)
    requires all == base + ([RetryReset] + rest) && Resets(base) == 0
    requires forall i :: 0 <= i < |base| ==> base[i].Norm?
    ensures Kept(all) == Kept(rest) && Resets(all) == 1 + Resets(rest)
    ensures rest != [] ==> all != [] && all[|all| - 1] == rest[|rest| - 1]
    ensures forall i :: 0 <= i < |all| && all[i].Final? ==> i >= |base| + 1 && rest[i - |base| - 1].Final?
    ensures |all| == |base| + 1 + |rest|
  {
    KeptAfterReset(base, rest);
    ResetsAfterRetry(base, rest);
    PlacesAfterRetry(base, rest, all);
  }

  lemma PlacesAfterRetry(base: seq<Output>, rest: seq<Output>, all: seq<Output>)
    requires all == base + ([RetryReset] + rest) && forall i :: 0 <= i < |base| ==> base[i].Norm?
    ensures rest != [] ==> all != [] && all[|all| - 1] == rest[|rest| - 1]
    ensures forall i :: 0 <= i < |all| && all[i].Final? ==> i >= |base| + 1 && rest[i - |base| - 1].Final?
  {
    assert forall i :: 0 <= i < |base| ==> all[i] == base[i];
    assert all[|base|] == RetryReset;
  }

  // ---------- the protocol, read off the provider ----------

  /** Attempt `k` failed in passing and in time, there are retries left, and nobody would see text taken back. */
  ghost predicate Earned(p: Provider, replayVisible: bool, maxRetries: int, k: nat) {
    && !p(k).expired && p(k).ending == Failed(true, false) && k < maxRetries
    && (replayVisible || forall c :: c in p(k).chunks && c.hasChoices ==> c.text == "")
  }

  /** How a stream that stops with attempt `n` ends. */
  predicate EndsAs(a: Attempt, end: End) {
    match end
    case Finished => !a.expired && a.ending == Completed
    case OutOfBudget => a.expired || (a.ending.Failed? && a.ending.late)
    case ProviderError(t) => !a.expired && a.ending == Failed(t, false)
  }

  lemma VisibleIn(cs: seq<Chunk>)
    ensures !Visible(cs) <==> forall c :: c in cs && c.hasChoices ==> c.text == ""
  {
    if !Visible(cs) {
      forall c | c in cs && c.hasChoices ensures c.text == "" {
        var i :| 0 <= i < |cs| && cs[i] == c;
      }
    }
  }

  /** The stream of an attempt that is the last one, and of one that is not. */
  lemma OutcomeUnfolds(p: Provider, replayVisible: bool, maxRetries: int, k: nat)
    ensures var r := Outcome(p, replayVisible, maxRetries, k);
            if Retries(p(k), replayVisible, maxRetries, k) then
              var rest := Outcome(p, replayVisible, maxRetries, k + 1);
              r == Result(Emitted(k, p(k).chunks) + ([RetryReset] + rest.outputs), rest.end, 1 + rest.requests)
            else
              r.outputs == AttemptOutputs(p(k), k) && EndsAs(p(k), r.end) && r.requests == if p(k).expired then 0 else 1
  {
  }

  lemma AttemptHasNoReset(a: Attempt, k: nat)
    ensures Resets(AttemptOutputs(a, k)) == 0
  {
    EmittedHasNoReset(k, a.chunks);
    if !a.expired && a.ending.Completed? {
      ResetsConcat(Emitted(k, a.chunks), [Final(FinalCalls(AddAll(map[], Fragments(a.chunks))), LastFinish(a.chunks))]);
    }
  }

  lemma EarnedIsRetried(p: Provider, replayVisible: bool, maxRetries: int, k: nat)
    ensures Earned(p, replayVisible, maxRetries, k) <==> Retries(p(k), replayVisible, maxRetries, k)
  {
    VisibleIn(p(k).chunks);
  }

  /**
   * Every attempt followed by another had earned its retry, and the last had not; the stream ends as
   * the last attempt did. All attempts but one whose budget was gone before it cost a request.
   */
  lemma {:induction false} RetriesAreEarned(p: Provider, replayVisible: bool, maxRetries: int, k: nat)
    ensures var r := Outcome(p, replayVisible, maxRetries, k);
            var n := k + Resets(r.outputs);
            && (forall j :: k <= j < n ==> Earned(p, replayVisible, maxRetries, j))
            && !Earned(p, replayVisible, maxRetries, n)
            && EndsAs(p(n), r.end)
            && r.requests == Resets(r.outputs) + if p(n).expired then 0 else 1
    decreases maxRetries - k
  {
    OutcomeUnfolds(p, replayVisible, maxRetries, k);
    EarnedIsRetried(p, replayVisible, maxRetries, k);
    if Retries(p(k), replayVisible, maxRetries, k) {
      RetriesAreEarned(p, replayVisible, maxRetries, k + 1);
      EmittedHasNoReset(k, p(k).chunks);
      ResetsAfterRetry(Emitted(k, p(k).chunks), Outcome(p, replayVisible, maxRetries, k + 1).outputs);
    } else {
      AttemptHasNoReset(p(k), k);
    }
  }

  /** The chunks a consumer is handed. */
  function WithChoices(cs: seq<Chunk>): seq<Chunk> {
    if cs == [] then [] else (if cs[0].hasChoices then [cs[0]] else []) + WithChoices(cs[1..])
  }

  /** The chunks handed out as those of attempt `a`. */
  function ChunksOf(outs: seq<Output>, a: nat): seq<Chunk> {
    if outs == [] then []
    else (if outs[0].Norm? && outs[0].attempt == a then [outs[0].chunk] else []) + ChunksOf(outs[1..], a)
  }

  lemma {:induction false} ChunksOfConcat(x: seq<Output>, y: seq<Output>, a: nat)
    ensures ChunksOf(x + y, a) == ChunksOf(x, a) + ChunksOf(y, a)
    decreases |x|
  {
    if x == [] {
      assert x + y == y;
    } else {
      assert (x + y)[1..] == x[1..] + y;
      ChunksOfConcat(x[1..], y, a);
    }
  }

  lemma {:induction false} WithChoicesSnoc(cs: seq<Chunk>, c: Chunk)
    ensures WithChoices(cs + [c]) == WithChoices(cs) + if c.hasChoices then [c] else []
    decreases |cs|
  {
    if cs == [] {
      assert [] + [c] == [c] && [c][1..] == [];
    } else {
      assert (cs + [c])[1..] == cs[1..] + [c] && (cs + [c])[0] == cs[0];
      WithChoicesSnoc(cs[1..], c);
      ThreeApart(if cs[0].hasChoices then [cs[0]] else [], WithChoices(cs[1..]), if c.hasChoices then [c] else []);
    }
  }

  lemma ThreeApart<T>(a: seq<T>, b: seq<T>, c: seq<T>)
    ensures a + (b + c) == (a + b) + c
  {
  }

  lemma {:induction false} EmittedIsAll(k: nat, cs: seq<Chunk>, a: nat)
    ensures ChunksOf(Emitted(k, cs), a) == if a == k then WithChoices(cs) else []
    decreases |cs|
  {
    if cs != [] {
      var n := |cs| - 1;
      EmittedIsAll(k, cs[..n], a);
      assert cs == cs[..n] + [cs[n]];
      WithChoicesSnoc(cs[..n], cs[n]);
      if cs[n].hasChoices {
        ChunksOfConcat(Emitted(k, cs[..n]), [Norm(k, cs[n])], a);
        assert [Norm(k, cs[n])][1..] == [];
      } else {
        assert Emitted(k, cs) == Emitted(k, cs[..n]);
      }
    }
  }

  lemma {:induction false} NothingBefore(outs: seq<Output>, k: nat, a: nat)
    requires Tagged(outs, k) && a < k
    ensures ChunksOf(outs, a) == []
    decreases |outs|
  {
    if outs != [] {
      var n := |outs| - 1;
      TaggedPrefix(outs, k, n);
      NothingBefore(outs[..n], k, a);
      assert TaggedAt(outs, k, n);
      assert outs == outs[..n] + [outs[n]];
      ChunksOfConcat(outs[..n], [outs[n]], a);
      assert [outs[n]][1..] == [];
    }
  }

  lemma AttemptIsAll(att: Attempt, k: nat, a: nat)
    ensures ChunksOf(AttemptOutputs(att, k), a) == if a == k && !att.expired then WithChoices(att.chunks) else []
  {
    EmittedIsAll(k, att.chunks, a);
    if !att.expired && att.ending.Completed? {
      var last := [Final(FinalCalls(AddAll(map[], Fragments(att.chunks))), LastFinish(att.chunks))];
      ChunksOfConcat(Emitted(k, att.chunks), last, a);
      assert last[1..] == [];
    }
  }

  lemma ChunksAfterRetry(base: seq<Output>, rest: seq<Output>, a: nat)
    ensures ChunksOf(base + ([RetryReset] + rest), a) == ChunksOf(base, a) + ChunksOf(rest, a)
  {
    ChunksOfConcat(base, [RetryReset] + rest, a);
    assert ([RetryReset] + rest)[1..] == rest;
  }

  /** The tool-call fragments of some chunks, one after the other. */
  function Joined(cs: seq<Chunk>): seq<Fragment> {
    if cs == [] then [] else cs[0].calls + Joined(cs[1..])
  }

  /** `finish` is the last finish reason given, if one is. */
  predicate LastGiven(cs: seq<Chunk>, finish: string) {
    if forall i :: 0 <= i < |cs| ==> cs[i].finish == "" then finish == ""
    else exists i :: 0 <= i < |cs| && cs[i].finish != "" && cs[i].finish == finish
                     && forall j :: i < j < |cs| ==> cs[j].finish == ""
  }

  lemma {:induction false} JoinedSnoc(cs: seq<Chunk>, c: Chunk)
    ensures Joined(cs + [c]) == Joined(cs) + c.calls
    decreases |cs|
  {
    if cs == [] {
      assert [] + [c] == [c] && [c][1..] == [];
    } else {
      assert (cs + [c])[1..] == cs[1..] + [c] && (cs + [c])[0] == cs[0];
      JoinedSnoc(cs[1..], c);
      ThreeApart(cs[0].calls, Joined(cs[1..]), c.calls);
    }
  }

  lemma {:induction false} FragmentsAreJoined(cs: seq<Chunk>)
    ensures Fragments(cs) == Joined(WithChoices(cs))
    decreases |cs|
  {
    if cs != [] {
      var n := |cs| - 1;
      FragmentsAreJoined(cs[..n]);
      assert cs == cs[..n] + [cs[n]];
      WithChoicesSnoc(cs[..n], cs[n]);
      if cs[n].hasChoices {
        JoinedSnoc(WithChoices(cs[..n]), cs[n]);
      } else {
        assert Fragments(cs) == Fragments(cs[..n]) && WithChoices(cs) == WithChoices(cs[..n]);
      }
    }
  }

  lemma LastGivenSnoc(cs: seq<Chunk>, c: Chunk, finish: string)
    requires LastGiven(cs, finish)
    ensures LastGiven(cs + [c], if c.finish != "" then c.finish else finish)
  {
    var more := cs + [c];
    if c.finish != "" {
      assert more[|cs|].finish == c.finish;
    } else if !(forall i :: 0 <= i < |cs| ==> cs[i].finish == "") {
      var i :| 0 <= i < |cs| && cs[i].finish != "" && cs[i].finish == finish
               && forall j :: i < j < |cs| ==> cs[j].finish == "";
      assert more[i].finish == finish;
    }
  }

  lemma {:induction false} LastFinishIsGiven(cs: seq<Chunk>)
    ensures LastGiven(WithChoices(cs), LastFinish(cs))
    decreases |cs|
  {
    if cs != [] {
      var n := |cs| - 1;
      LastFinishIsGiven(cs[..n]);
      assert cs == cs[..n] + [cs[n]];
      WithChoicesSnoc(cs[..n], cs[n]);
      if cs[n].hasChoices {
        LastGivenSnoc(WithChoices(cs[..n]), cs[n], LastFinish(cs[..n]));
      } else {
        assert WithChoices(cs) == WithChoices(cs[..n]);
      }
    }
  }

  /**
   * What the final chunk says, read off what was handed out before it: the calls assembled from the
   * fragments of the last attempt, and the last finish reason it gave.
   */
  lemma FinalSays(p: Provider, replayVisible: bool, maxRetries: int)
    ensures var r := Outcome(p, replayVisible, maxRetries, 0);
            var handed := ChunksOf(r.outputs, Resets(r.outputs));
            r.end == Finished ==>
              && r.outputs != [] && r.outputs[|r.outputs| - 1].Final?
              && r.outputs[|r.outputs| - 1].calls == FinalCalls(AddAll(map[], Joined(handed)))
              && LastGiven(handed, r.outputs[|r.outputs| - 1].finish)
  {
    var a := FinalClosesOneAttempt(p, replayVisible, maxRetries, 0);
    AttemptsDelivered(p, replayVisible, maxRetries, 0, a);
    FragmentsAreJoined(p(a).chunks);
    LastFinishIsGiven(p(a).chunks);
  }

  /** Of every attempt made, all chunks with choices are handed out, in order, and of no other anything. */
  lemma {:induction false} AttemptsDelivered(p: Provider, replayVisible: bool, maxRetries: int, k: nat, a: nat)
    requires k <= a
    ensures var r := Outcome(p, replayVisible, maxRetries, k);
            ChunksOf(r.outputs, a) == if a <= k + Resets(r.outputs) && !p(a).expired then WithChoices(p(a).chunks) else []
    decreases maxRetries - k
  {
    OutcomeUnfolds(p, replayVisible, maxRetries, k);
    if Retries(p(k), replayVisible, maxRetries, k) {
      var rest := Outcome(p, replayVisible, maxRetries, k + 1).outputs;
      EmittedHasNoReset(k, p(k).chunks);
      EmittedIsAll(k, p(k).chunks, a);
      ResetsAfterRetry(Emitted(k, p(k).chunks), rest);
      ChunksAfterRetry(Emitted(k, p(k).chunks), rest, a);
      LaterDelivered(p, replayVisible, maxRetries, k, a, rest);
    } else {
      AttemptHasNoReset(p(k), k);
      AttemptIsAll(p(k), k, a);
    }
  }

  lemma LaterDelivered(p: Provider, replayVisible: bool, maxRetries: int, k: nat, a: nat, rest: seq<Output>)
    requires k <= a && k < maxRetries && rest == Outcome(p, replayVisible, maxRetries, k + 1).outputs
    ensures ChunksOf(rest, a) == if k < a <= k + 1 + Resets(rest) && !p(a).expired then WithChoices(p(a).chunks) else []
    decreases maxRetries - k, 0
  {
    if a == k {
      OutputsTagged(p, replayVisible, maxRetries, k + 1);
      NothingBefore(rest, k + 1, a);
    } else {
      AttemptsDelivered(p, replayVisible, maxRetries, k + 1, a);
    }
  }

  // ---------- composition with the watchdog ----------

  /** Attempt `a` is what some finished run of the watchdog `cfg` delivered. */
  ghost predicate Watched(a: Attempt, cfg: Watchdog.Config, es: seq<Watchdog.Event>) {
    && Watchdog.Run(cfg, Watchdog.Init(cfg), es).Some?
    && var s := Watchdog.Run(cfg, Watchdog.Init(cfg), es).value;
    && s.gen.Exited? && s.gen.outcome != Watchdog.Closed
    && a.chunks == Watchdog.Payload(s.yielded)
    && (a.ending.Completed? <==> s.gen.outcome == Watchdog.Returned)
  }

  /**
   * Engine-side text, retry protocol and watchdog together: when a stream finishes, the text its
   * consumer holds is the whole of what one provider attempt sent, and so are the tool calls.
   */
  lemma FinishedStreamIsOneWholeAttempt(p: Provider, replayVisible: bool, maxRetries: int,
                                        cfgs: nat -> Watchdog.Config, runs: nat -> seq<Watchdog.Event>) returns (a: nat)
    requires forall k: nat :: !p(k).expired ==> Watched(p(k), cfgs(k), runs(k))
    requires Outcome(p, replayVisible, maxRetries, 0).end == Finished
    ensures var r := Outcome(p, replayVisible, maxRetries, 0);
            && a == Resets(r.outputs)
            && r.outputs != []
            && Kept(r.outputs) == TextIn(cfgs(a).script)
            && r.outputs[|r.outputs| - 1]
               == Final(FinalCalls(AddAll(map[], Fragments(cfgs(a).script))), LastFinish(cfgs(a).script))
            && cfgs(a).ending == None
  {
    a := FinalClosesOneAttempt(p, replayVisible, maxRetries, 0);
    assert Watched(p(a), cfgs(a), runs(a));
    Watchdog.YieldsAreAPrefix(cfgs(a), runs(a));
  }
}
