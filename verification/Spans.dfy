/** Reasoning spans of a turn: what the stored spans say when attempts are discarded and retried. */
module Spans {
  import opened Common

  datatype Span = Span(seconds: real, beforeTool: nat, text: string)

  /** What reaches the recorder: calls of the engine, deltas, and events that close a span. */
  datatype Op = NewStep(first: bool) | Discard | Delta(text: string) | Closer

  function TextOf(spans: seq<Span>): string {
    if spans == [] then "" else TextOf(spans[..|spans| - 1]) + spans[|spans| - 1].text
  }

  lemma {:induction false} TextConcat(a: seq<Span>, b: seq<Span>)
    ensures TextOf(a + b) == TextOf(a) + TextOf(b)
    decreases |b|
  {
    if b == [] {
      assert a + b == a;
    } else {
      assert (a + b)[..|a + b| - 1] == a + b[..|b| - 1];
      TextConcat(a, b[..|b| - 1]);
    }
  }

  lemma TextSnoc(spans: seq<Span>, n: nat, span: Span)
    requires n <= |spans|
    ensures (spans + [span])[..n] == spans[..n]
    ensures TextOf((spans + [span])[n..]) == TextOf(spans[n..]) + span.text
  {
    assert (spans + [span])[n..] == spans[n..] + [span];
    assert (spans[n..] + [span])[..|spans[n..]|] == spans[n..];
  }

  /**
   * The reference: reasoning text of earlier steps, and of the current attempt. Discarding an
   * attempt forgets its text; starting a step settles what the one before it left.
   */
  datatype Kept = Kept(settled: string, attempt: string)

  function KeptAfter(k: Kept, op: Op): Kept {
    match op
    case NewStep(_) => Kept(k.settled + k.attempt, "")
    case Discard => Kept(k.settled, "")
    case Delta(text) => Kept(k.settled, k.attempt + text)
    case Closer => k
  }

  function KeptAll(ops: seq<Op>): Kept {
    if ops == [] then Kept("", "") else KeptAfter(KeptAll(ops[..|ops| - 1]), ops[|ops| - 1])
  }

  class Recorder {
    var stepStarted: real
    var stepSpans: nat
    var spanStarted: Option<real>
    var spanText: string
    var spans: seq<Span>
    var attemptSpans: nat
    /** How many `reasoning_done` events have been emitted. */
    var closed: nat

    constructor (started: real)
      ensures Holds(Kept("", "")) && spanStarted == None && spans == [] && closed == 0
    {
      stepStarted, stepSpans, spanStarted, spanText, spans, attemptSpans, closed := started, 0, None, "", [], 0, 0;
    }

    /** The stored spans and the open one together spell the text kept so far. */
    ghost predicate Holds(k: Kept)
      reads this
    {
      && attemptSpans <= |spans|
      && (spanStarted.None? ==> spanText == "")
      && TextOf(spans[..attemptSpans]) == k.settled
      && TextOf(spans[attemptSpans..]) + spanText == k.attempt
    }

    /** `reasoning_delta`; the first span of a step counts from the model call. */
    method Delta(text: string, now: real, ghost k: Kept)
      requires Holds(k)
      modifies this
      ensures Holds(KeptAfter(k, Op.Delta(text)))
      ensures old(spanStarted).None? ==> spanStarted == Some(if old(stepSpans) == 0 then stepStarted else now)
      ensures old(spanStarted).Some? ==> spanStarted == old(spanStarted)
      ensures spans == old(spans) && attemptSpans == old(attemptSpans) && closed == old(closed)
    {
      if spanStarted.None? {
        spanStarted := Some(if stepSpans == 0 then stepStarted else now);
        stepSpans := stepSpans + 1;
      }
      assert TextOf(spans[attemptSpans..]) + (spanText + text) == (TextOf(spans[attemptSpans..]) + spanText) + text;
      spanText := spanText + text;
    }

    /** `close`; also what a closing event does first. */
    method Close(tools: nat, now: real, ghost k: Kept)
      requires Holds(k)
      modifies this
      ensures Holds(k) && spanStarted == None && attemptSpans == old(attemptSpans) && spanText == ""
      ensures old(spanStarted).None? ==> spans == old(spans) && closed == old(closed)
      ensures old(spanStarted).Some? ==>
                && closed == old(closed) + 1 && |spans| == |old(spans)| + 1 && spans[..|old(spans)|] == old(spans)
                && spans[|old(spans)|].beforeTool == tools && spans[|old(spans)|].text == old(spanText)
                && var elapsed := now - old(spanStarted).value;
                   spans[|old(spans)|].seconds == if elapsed > 0.0 then elapsed else 0.0
    {
      if spanStarted.None? {
        return;
      }
      var elapsed := now - spanStarted.value;
      var span := Span(if elapsed > 0.0 then elapsed else 0.0, tools, spanText);
      TextSnoc(spans, attemptSpans, span);
      spanStarted := None;
      spanText := "";
      spans := spans + [span];
      closed := closed + 1;
    }

    /** `discard_attempt`: a retried attempt takes its spans with it. */
    method DiscardAttempt(ghost k: Kept)
      requires Holds(k)
      modifies this
      ensures Holds(KeptAfter(k, Discard)) && spanStarted == None
      ensures attemptSpans == old(attemptSpans) && spans == old(spans[..attemptSpans]) && closed == old(closed)
    {
      assert spans[..attemptSpans][..attemptSpans] == spans[..attemptSpans];
      spans := spans[..attemptSpans];
      stepSpans := 0;
      spanStarted := None;
      spanText := "";
      assert spans[attemptSpans..] == [];
    }

    /** `new_step`; the engine has closed the last span before every step but the first. */
    method NewStep(first: bool, now: real, ghost k: Kept)
      requires Holds(k) && spanStarted == None
      modifies this
      ensures Holds(KeptAfter(k, Op.NewStep(first))) && spanStarted == None
      ensures spans == old(spans) && attemptSpans == |spans| && closed == old(closed)
    {
      assert spans == spans[..attemptSpans] + spans[attemptSpans..];
      TextConcat(spans[..attemptSpans], spans[attemptSpans..]);
      if !first {
        stepStarted := now;
        stepSpans := 0;
      }
      attemptSpans := |spans|;
      assert spans[..|spans|] == spans && spans[|spans|..] == [];
    }

    method Handle(op: Op, tools: nat, now: real, ghost k: Kept)
      requires Holds(k) && (op.NewStep? ==> spanStarted == None)
      modifies this
      ensures Holds(KeptAfter(k, op)) && (!op.Delta? ==> spanStarted == None)
    {
      match op
      case NewStep(first) => NewStep(first, now, k);
      case Discard => DiscardAttempt(k);
      case Delta(text) => Delta(text, now, k);
      case Closer => Close(tools, now, k);
    }

    /** The last close of a turn, and the spans it stores. */
    method Finish(tools: nat, now: real, ghost k: Kept) returns (stored: seq<Span>)
      requires Holds(k)
      modifies this
      ensures TextOf(stored) == k.settled + k.attempt
    {
      Close(tools, now, k);
      stored := spans;
      TextConcat(stored[..attemptSpans], stored[attemptSpans..]);
      assert stored == stored[..attemptSpans] + stored[attemptSpans..];
      assert k.attempt + "" == k.attempt;
    }
  }

  /** Every step is begun with the last span closed. */
  predicate WellFormed(ops: seq<Op>) {
    forall i :: 1 <= i < |ops| && ops[i].NewStep? ==> !ops[i - 1].Delta?
  }

  /**
   * A whole run, whatever its retries: the stored spans, once the last is closed, spell exactly
   * the reasoning of the attempts that were kept, in order.
   */
  method Record(ops: seq<Op>, tools: nat, clock: nat -> real, started: real) returns (spans: seq<Span>)
    requires WellFormed(ops)
    ensures TextOf(spans) == KeptAll(ops).settled + KeptAll(ops).attempt
  {
    var r := new Recorder(started);
    for i := 0 to |ops|
      invariant r.Holds(KeptAll(ops[..i]))
      invariant i == 0 || !ops[i - 1].Delta? ==> r.spanStarted == None
    {
      KeptNext(ops, i);
      r.Handle(ops[i], tools, clock(i), KeptAll(ops[..i]));
    }
    assert ops[..|ops|] == ops;
    spans := r.Finish(tools, clock(|ops|), KeptAll(ops));
  }

  lemma KeptNext(ops: seq<Op>, i: nat)
    requires i < |ops|
    ensures KeptAll(ops[..i + 1]) == KeptAfter(KeptAll(ops[..i]), ops[i])
  {
    assert ops[..i + 1][..i] == ops[..i];
  }
}
