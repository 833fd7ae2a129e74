/**
 * One turn of the agent engine. The model and the tools are arbitrary functions of the number of the
 * call; the clock, the budget ledger and everything else the source asks from outside are
 * nondeterministic; the interrupt flag may be raised by another thread at any read and is lowered
 * only by the turn itself.
 */
module Engine {
  import opened Common
  import opened Messages
  import opened Text
  import Chunks
  import Compaction
  import Streaming
  import ToolCalls

  // ---------- tools ----------

  datatype ToolResult = ToolResult(ok: bool, output: string, error: string)

  /** A decoded tool call: its peer id, what its arguments say about the workgroup, and its wire form. */
  datatype Decoded = Decoded(valid: bool, peerId: string, toGroup: bool, working: bool, wire: string)

  /**
   * What a turn is run against: the model, behind call number `n`; the decoding of arguments; the tools,
   * as a function of the call's number in the turn and the call; the per-tool output budget; and the
   * markers put around what a tool says.
   */
  datatype World = World(
    providers: nat -> Streaming.Provider,
    clean: string -> string,
    decode: ToolCalls.Entry -> Decoded,
    run: (nat, ToolCalls.Entry) -> ToolResult,
    cap: (string, string) -> string,
    fence: (string, string, bool) -> string)

  /**
   * What came of a call. It ran, as call `number`, or is given the result of `whose`, the call that ran
   * under its id; the engine itself made it after the loop; it was refused; or the user interrupted first.
   */
  datatype How = Ran(number: nat, whose: ToolCalls.Entry) | Posted | Refused(why: string) | Skipped

  /** `output` is what the tool returned, `payload` what the history and the event stream are told. */
  datatype ToolLog = ToolLog(call: ToolCalls.Entry, peerId: string, how: How, ok: bool, output: string, payload: string)

  const SKIPPED := "[skipped \U{2014} user interrupted]"

  /** The log says what the result `r` says. */
  predicate Tells(w: World, t: ToolLog, r: ToolResult) {
    && t.ok == r.ok && t.output == r.output
    && t.payload == w.cap(t.call.name,
                          if r.ok then r.output
                          else if Strip(r.output) != "" then "ERROR: " + r.error + "\n" + r.output
                          else "ERROR: " + r.error)
  }

  /** The tools that declare themselves safe to run at once; a tool from outside never is. */
  predicate ParallelSafe(name: string) {
    name == "search" || name == "web_fetch" || name == "read_file" || name == "web_search"
  }

  /** Why a call is refused: its arguments do not decode, or the mode of the turn forbids it. */
  predicate Unfit(w: World, peer: string, c: ToolCalls.Entry, peerId: string, earlier: List<ToolLog>) {
    || !w.decode(c).valid
    || (peer == "" && c.name == "decline")
    || (peer != "" && Declined(earlier))
    || (peer != "" && c.name == "decline" && Forwarded(earlier, peer))
    || (peer != "" && c.name != "decline" && !(c.name == "peer" && Strip(peerId) == peer))
  }

  /** The log `t`, behind `earlier`, reports what the tool gave for that very call, or why it was not asked. */
  predicate Honest(w: World, peer: string, t: ToolLog, earlier: List<ToolLog>) {
    match t.how
    case Ran(number, whose) =>
      && t.peerId == w.decode(t.call).peerId && !Unfit(w, peer, t.call, t.peerId, earlier)
      && whose.id == t.call.id && number >= Size(earlier) && (number == Size(earlier) ==> whose == t.call)
      && Tells(w, t, w.run(number, whose))
    case Posted =>
      t.call.name == "workgroup_post" && Tells(w, t, w.run(Size(earlier), t.call))
    case Refused(why) =>
      && t.peerId == w.decode(t.call).peerId && Unfit(w, peer, t.call, t.peerId, earlier)
      && !t.ok && t.output == "" && t.payload == w.cap(t.call.name, "ERROR: " + why)
    case Skipped =>
      !t.ok && t.output == "" && t.payload == "[skipped \U{2014} user interrupted]"
  }

  /** The log began as `start`. */
  predicate Begins(ts: List<ToolLog>, start: List<ToolLog>) {
    ts == start || (ts.Snoc? && Begins(ts.front, start))
  }

  ghost predicate AllHonest(w: World, peer: string, ts: List<ToolLog>) {
    forall start :: Begins(ts, start) && start.Snoc? ==> Honest(w, peer, start.last, start.front)
  }

  lemma HonestNext(w: World, peer: string, ts: List<ToolLog>, t: ToolLog)
    requires AllHonest(w, peer, ts) && Honest(w, peer, t, ts)
    ensures AllHonest(w, peer, Snoc(ts, t))
  {
    forall start | Begins(Snoc(ts, t), start) && start.Snoc? ensures Honest(w, peer, start.last, start.front) {
      assert start == Snoc(ts, t) || Begins(ts, start);
    }
  }

  predicate NoneSkipped(ts: List<ToolLog>) {
    ts.Snoc? ==> NoneSkipped(ts.front) && !ts.last.how.Skipped?
  }

  /** The tool messages that the logs stand for, in order: one each, but for the engine's own posts. */
  function RepliesOf(w: World, ts: List<ToolLog>): seq<Message> {
    if ts.Nil? then []
    else if ts.last.how.Posted? then RepliesOf(w, ts.front)
    else RepliesOf(w, ts.front) + [
        Tool(ts.last.call.id, ts.last.call.name,
             JStr(if ts.last.how.Skipped? then ts.last.payload
                  else w.fence(ts.last.call.name, ts.last.payload, !ts.last.ok)))]
  }

  /** The tool messages of a history. */
  function ToolsIn(ms: seq<Message>): seq<Message> {
    if ms == [] then []
    else ToolsIn(ms[..|ms| - 1]) + if ms[|ms| - 1].Tool? then [ms[|ms| - 1]] else []
  }

  /** The history has grown from `opening`, and the tool messages added are what the logs say, in order. */
  ghost predicate Recounts(w: World, opening: seq<Message>, messages: seq<Message>, ts: List<ToolLog>) {
    && opening <= messages
    && forall added :: messages == opening + added ==> ToolsIn(added) == RepliesOf(w, ts)
  }

  /** A history that has not grown yet. */
  lemma RecountsNothing(w: World, opening: seq<Message>)
    ensures Recounts(w, opening, opening, Nil)
  {
  }

  lemma LastAdded(messages: seq<Message>, m: Message, opening: seq<Message>, added: seq<Message>)
    requires messages + [m] == opening + added && |opening| <= |messages|
    ensures added != [] && added[|added| - 1] == m && messages == opening + added[..|added| - 1]
  {
    assert |messages + [m]| == |opening| + |added|;
    assert (messages + [m])[|messages|] == (opening + added)[|messages|];
    forall i | 0 <= i < |messages| ensures messages[i] == (opening + added[..|added| - 1])[i] {
      assert (messages + [m])[i] == (opening + added)[i];
    }
  }

  /** One more message, with the log it replies to if it is a reply. */
  lemma RecountsNext(w: World, opening: seq<Message>, messages: seq<Message>, ts: List<ToolLog>, m: Message, ts': List<ToolLog>)
    requires Recounts(w, opening, messages, ts)
    requires if m.Tool? then ts'.Snoc? && ts'.front == ts && !ts'.last.how.Posted? && m == ReplyTo(w, ts'.last) else ts' == ts
    ensures Recounts(w, opening, messages + [m], ts')
  {
    forall added | messages + [m] == opening + added ensures ToolsIn(added) == RepliesOf(w, ts') {
      LastAdded(messages, m, opening, added);
    }
  }

  /** A post of the engine's own has no reply. */
  lemma RecountsPost(w: World, opening: seq<Message>, messages: seq<Message>, ts: List<ToolLog>, t: ToolLog)
    requires Recounts(w, opening, messages, ts) && t.how.Posted?
    ensures Recounts(w, opening, messages, Snoc(ts, t))
  {
    assert RepliesOf(w, Snoc(ts, t)) == RepliesOf(w, ts);
  }

  /** What the history is told of a result: its output or its error, within the tool's budget. */
  function Payload(w: World, name: string, r: ToolResult): string {
    w.cap(name,
          if r.ok then r.output
          else if Strip(r.output) != "" then "ERROR: " + r.error + "\n" + r.output
          else "ERROR: " + r.error)
  }

  /** The reply a log stands for. */
  function ReplyTo(w: World, t: ToolLog): Message {
    Tool(t.call.id, t.call.name,
         JStr(if t.how.Skipped? then t.payload else w.fence(t.call.name, t.payload, !t.ok)))
  }

  /** A post to the turn's own workgroup that says more than that work goes on. */
  predicate Delivers(w: World, t: ToolLog) {
    t.ok && t.call.name == "workgroup_post" && w.decode(t.call).toGroup && !w.decode(t.call).working
  }

  predicate AnyDelivers(w: World, logs: seq<ToolLog>) {
    logs != [] && (Delivers(w, logs[|logs| - 1]) || AnyDelivers(w, logs[..|logs| - 1]))
  }

  function Extend(ts: List<ToolLog>, logs: seq<ToolLog>): List<ToolLog> {
    if logs == [] then ts else Snoc(Extend(ts, logs[..|logs| - 1]), logs[|logs| - 1])
  }

  /** The replies that logs stand for. */
  function AllReplies(w: World, logs: seq<ToolLog>): seq<Message> {
    if logs == [] then [] else AllReplies(w, logs[..|logs| - 1]) + [ReplyTo(w, logs[|logs| - 1])]
  }

  lemma {:induction false} ReplyAt(w: World, logs: seq<ToolLog>)
    ensures |AllReplies(w, logs)| == |logs|
    ensures forall i :: 0 <= i < |logs| ==> AllReplies(w, logs)[i] == ReplyTo(w, logs[i])
  {
    if logs != [] {
      ReplyAt(w, logs[..|logs| - 1]);
    }
  }

  lemma {:induction false} ExtendSize(ts: List<ToolLog>, logs: seq<ToolLog>)
    ensures Size(Extend(ts, logs)) == Size(ts) + |logs|
  {
    if logs != [] {
      ExtendSize(ts, logs[..|logs| - 1]);
    }
  }

  /** One more log. */
  lemma ExtendNext(ts: List<ToolLog>, logs: seq<ToolLog>, log: ToolLog)
    ensures forall w :: AnyDelivers(w, logs + [log]) <==> AnyDelivers(w, logs) || Delivers(w, log)
    ensures Extend(ts, logs + [log]) == Snoc(Extend(ts, logs), log)
    ensures forall w :: AllReplies(w, logs + [log]) == AllReplies(w, logs) + [ReplyTo(w, log)]
  {
    assert (logs + [log])[..|logs|] == logs;
  }

  // ---------- the event stream ----------

  datatype Event =
    | UserEcho
    | ReasoningDelta
    | Delta(text: string, call: nat, attempt: nat)
    | ModelState
    | AssistantDone(text: string, final: bool)
    | ToolStart(id: string, name: string)
    | ToolEnd(id: string, log: ToolLog)
    | Usage
    | Routing
    | AutoCompact
    | Error
    | Interrupted
    | Done

  predicate IsFinal(e: Event) { e.AssistantDone? && e.final }

  /** A log that grows at its end. */
  datatype List<T> = Nil | Snoc(front: List<T>, last: T)

  function Size<T>(l: List<T>): nat {
    if l.Nil? then 0 else Size(l.front) + 1
  }

  ghost predicate Includes<T>(l: List<T>, x: T) {
    l.Snoc? && (l.last == x || Includes(l.front, x))
  }

  lemma IncludesLast<T>(l: List<T>, x: T)
    ensures forall y :: Includes(Snoc(l, x), y) <==> y == x || Includes(l, y)
  {
  }

  function Dones(es: List<Event>): nat {
    if es.Nil? then 0 else Dones(es.front) + if es.last.Done? then 1 else 0
  }

  function Finals(es: List<Event>): nat {
    if es.Nil? then 0 else Finals(es.front) + if IsFinal(es.last) then 1 else 0
  }

  predicate IsTerminal(e: Event) { e.Done? || e.Error? || e.Interrupted? }

  /** Some terminal event was emitted. */
  predicate Ended(es: List<Event>) {
    es.Snoc? && (IsTerminal(es.last) || Ended(es.front))
  }

  /** The tool logs, as the `tool_end` events report them. */
  function Logs(es: List<Event>): List<ToolLog> {
    if es.Nil? then Nil
    else if es.last.ToolEnd? then Snoc(Logs(es.front), es.last.log)
    else Logs(es.front)
  }

  /** The text deltas. */
  function Shown(es: List<Event>): List<Event> {
    if es.Nil? then Nil
    else if es.last.Delta? then Snoc(Shown(es.front), es.last)
    else Shown(es.front)
  }

  /** The deltas shown since `before` are non-empty and all of one provider attempt. */
  predicate OneSource(now: List<Event>, before: List<Event>, call: nat, attempt: nat) {
    now == before ||
    (&& now.Snoc? && now.last.Delta? && now.last.text != ""
     && now.last.call == call && now.last.attempt == attempt
     && OneSource(now.front, before, call, attempt))
  }

  /** The text shown since `before`. */
  function TextSince(now: List<Event>, before: List<Event>): string {
    if now == before || now.Nil? || !now.last.Delta? then "" else TextSince(now.front, before) + now.last.text
  }

  /** What was shown since `before` is one attempt's of the call `call`, and adds up to `text`. */
  ghost predicate ShowsOneAttempt(now: List<Event>, before: List<Event>, text: string, call: nat) {
    TextSince(now, before) == text && exists attempt :: OneSource(now, before, call, attempt)
  }

  lemma OneSourceShows(now: List<Event>, before: List<Event>, text: string, call: nat, attempt: nat)
    requires OneSource(now, before, call, attempt) && TextSince(now, before) == text
    ensures ShowsOneAttempt(now, before, text, call)
  {
  }

  /** Adding a delta never gets back to where it started. */
  lemma {:induction false} SourceGrows(now: List<Event>, before: List<Event>, call: nat, attempt: nat)
    requires OneSource(now, before, call, attempt)
    ensures Size(now) >= Size(before)
    ensures TextSince(now, before) == "" ==> now == before
  {
    if now != before { SourceGrows(now.front, before, call, attempt); }
  }

  /** All that was shown since `before` is the text held, from one attempt. */
  predicate Holds(now: List<Event>, before: List<Event>, call: nat, attempt: nat, text: string) {
    OneSource(now, before, call, attempt) && TextSince(now, before) == text
  }

  /**
   * The reply is that of the last request made, on `history`: of the last call, its last attempt. It is
   * that attempt's whole text and the calls assembled from its fragments; with replay off, all that
   * was shown since `before` was shown by it and adds up to the text.
   */
  ghost predicate FromLastAttempt(providers: nat -> Streaming.Provider, sent: List<Sent>, history: seq<Message>, replay: bool,
                            now: List<Event>, before: List<Event>, text: string, calls: seq<ToolCalls.Entry>) {
    && sent.Snoc? && sent.last.history == history && sent.last.requests > 0
    && forall n, a :: LastRequest(sent, n, a) ==>
         Streaming.MadeBy(providers(n), a, text, calls) && (!replay ==> Holds(now, before, n, a, text))
  }

  /** The last request made is attempt `a` of call `n`. */
  predicate LastRequest(sent: List<Sent>, n: nat, a: nat) {
    Size(sent) == n + 1 && sent.last.requests == a + 1
  }

  lemma IsFromLastAttempt(providers: nat -> Streaming.Provider, sent: List<Sent>, history: seq<Message>, replay: bool,
                          now: List<Event>, before: List<Event>, text: string, calls: seq<ToolCalls.Entry>, attempt: nat)
    requires sent.Snoc? && sent.last == Sent(history, attempt + 1)
    requires Streaming.MadeBy(providers(Size(sent) - 1), attempt, text, calls)
    requires !replay ==> Holds(now, before, Size(sent) - 1, attempt, text)
    ensures FromLastAttempt(providers, sent, history, replay, now, before, text, calls)
  {
  }

  lemma SourceAppends(now: List<Event>, before: List<Event>, e: Event, call: nat, attempt: nat, text: string)
    requires Holds(now, before, call, attempt, text)
    requires e.Delta? && e.text != "" && e.call == call && e.attempt == attempt
    ensures Holds(Snoc(now, e), before, call, attempt, text + e.text)
  {
    SourceGrows(now, before, call, attempt);
  }

  /** No reply and no `done` yet, every log reported, and a failure announced. */
  predicate StreamOpen(es: List<Event>, tools: List<ToolLog>, failed: bool) {
    Dones(es) == 0 && Finals(es) == 0 && Logs(es) == tools && (failed ==> Ended(es))
  }

  /** How an event stream closes: some terminal event, at most one reply, then `done` last. */
  predicate StreamClosed(es: List<Event>, tools: List<ToolLog>, completed: bool, reply: string) {
    && Ended(es) && Logs(es) == tools
    && Dones(es) <= 1 && Finals(es) <= 1
    && (Dones(es) == 1 ==> es.Snoc? && es.last == Done)
    && (Finals(es) == 1 ==> Dones(es) == 1 && es.front.Snoc? && es.front.last == AssistantDone(reply, true))
    && (completed ==> Dones(es) == 1)
  }

  // ---------- relay mode ----------

  const USAGE_MARKER := "\n\n---\ntokens:"

  predicate StandsAt(s: string, t: string, i: nat) {
    i + |t| <= |s| && s[i..i + |t|] == t
  }

  /** The last place at or before `from` where `t` stands in `s`, if there is one. */
  function LastIndexOf(s: string, t: string, from: nat): (i: int)
    requires from <= |s|
    ensures -1 <= i <= from && (i >= 0 ==> StandsAt(s, t, i))
    ensures forall j: nat :: i < j <= from ==> !StandsAt(s, t, j)
  {
    if from + |t| <= |s| && s[from..from + |t|] == t then from
    else if from == 0 then -1
    else LastIndexOf(s, t, from - 1)
  }

  /** `_peer_reply_from_payload` */
  function PeerReply(payload: string): string {
    var text := Strip(payload);
    var i := LastIndexOf(text, USAGE_MARKER, |text|);
    if i >= 0 then Strip(text[..i]) else text
  }

  function RelayFallback(peer: string): string {
    "I can only answer using '" + peer + "' and couldn't consult it for this. Please try again."
  }

  /** The request was really put to the configured peer. */
  predicate Forwards(t: ToolLog, peer: string) {
    t.how.Ran? && t.call.name == "peer" && Strip(t.peerId) == peer
  }

  predicate Replies(t: ToolLog, peer: string) {
    Forwards(t, peer) && t.ok && PeerReply(t.output) != ""
  }

  predicate Declines(t: ToolLog) {
    t.how.Ran? && t.call.name == "decline" && t.ok && Strip(t.output) != ""
  }

  predicate Forwarded(ts: List<ToolLog>, peer: string) {
    ts.Snoc? && (Forwards(ts.last, peer) || Forwarded(ts.front, peer))
  }

  predicate Replied(ts: List<ToolLog>, peer: string) {
    ts.Snoc? && (Replies(ts.last, peer) || Replied(ts.front, peer))
  }

  predicate Declined(ts: List<ToolLog>) {
    ts.Snoc? && (Declines(ts.last) || Declined(ts.front))
  }

  predicate DeclinedWith(ts: List<ToolLog>, text: string) {
    ts.Snoc? && ((Declines(ts.last) && Strip(ts.last.output) == text) || DeclinedWith(ts.front, text))
  }

  /** In relay mode no call of the model runs but the configured peer and `decline`. */
  predicate RelayOnly(ts: List<ToolLog>, peer: string) {
    ts.Snoc? ==>
      && (ts.last.how.Ran? ==> Forwards(ts.last, peer) || ts.last.call.name == "decline")
      && RelayOnly(ts.front, peer)
  }

  // ---------- the final reply ----------

  /** `reply` is what a payload says before its last usage footer, without white space around it. */
  ghost predicate Unsigned(payload: string, reply: string) {
    var text, mark := Strip(payload), "\n\n---\ntokens:";
    if forall j: nat :: j <= |text| ==> !StandsAt(text, mark, j) then reply == text
    else exists i: nat :: i <= |text| && StandsAt(text, mark, i) && reply == Strip(text[..i])
                          && forall j: nat :: i < j <= |text| ==> !StandsAt(text, mark, j)
  }

  lemma PeerReplyIsUnsigned(payload: string)
    ensures Unsigned(payload, PeerReply(payload))
  {
    var text := Strip(payload);
    var i := LastIndexOf(text, USAGE_MARKER, |text|);
    assert i >= 0 ==> StandsAt(text, USAGE_MARKER, i);
  }

  /** Every log behind `start` failed. */
  predicate FailedSince(ts: List<ToolLog>, start: List<ToolLog>) {
    ts == start || (ts.Snoc? && !ts.last.ok && FailedSince(ts.front, start))
  }

  /** The last tool that succeeded was the peer, and `reply` is what it said. */
  ghost predicate PeerSaid(ts: List<ToolLog>, reply: string) {
    exists start :: FailedSince(ts, start) && SaidAtEnd(start, reply)
  }

  ghost predicate SaidAtEnd(ts: List<ToolLog>, reply: string) {
    && ts.Snoc? && ts.last.ok && ts.last.call.name == "peer"
    && exists said :: Unsigned(ts.last.payload, said) && Unsigned(said, reply)
  }

  lemma UnsignedIsOne(payload: string, a: string, b: string)
    requires Unsigned(payload, a) && Unsigned(payload, b)
    ensures a == b
  {
  }

  /** Whatever the last tool that succeeded said, if it is the peer, is the peer reply. */
  lemma {:induction false} SaidIsLastPeerReply(ts: List<ToolLog>, reply: string)
    requires PeerSaid(ts, reply)
    ensures LastPeerReply(ts) == reply
  {
    var start :| FailedSince(ts, start) && SaidAtEnd(start, reply);
    if start == ts {
      var said :| Unsigned(ts.last.payload, said) && Unsigned(said, reply);
      PeerReplyIsUnsigned(ts.last.payload);
      UnsignedIsOne(ts.last.payload, said, PeerReply(ts.last.payload));
      PeerReplyIsUnsigned(said);
      UnsignedIsOne(said, reply, PeerReply(said));
    } else {
      SaidIsLastPeerReply(ts.front, reply);
    }
  }

  lemma {:induction false} LastPeerReplyIsSaid(ts: List<ToolLog>)
    ensures LastPeerReply(ts) != "" ==> PeerSaid(ts, LastPeerReply(ts))
  {
    if ts.Snoc? && !ts.last.ok {
      LastPeerReplyIsSaid(ts.front);
      if LastPeerReply(ts) != "" {
        var start :| FailedSince(ts.front, start) && SaidAtEnd(start, LastPeerReply(ts.front));
        assert FailedSince(ts, start);
      }
    } else if ts.Snoc? && ts.last.call.name == "peer" {
      PeerReplyIsUnsigned(ts.last.payload);
      PeerReplyIsUnsigned(PeerReply(ts.last.payload));
      assert FailedSince(ts, ts) && SaidAtEnd(ts, LastPeerReply(ts));
    }
  }

  /** What is filed for a turn is the text `text`. */
  predicate Kept(filed: string, text: string) { filed == text }

  /** What the model last said, cleaned: it closes the history that the last request was made on. */
  ghost predicate Said(w: World, sent: List<Sent>, messages: seq<Message>, reply: string) {
    && sent.Snoc? && sent.last.requests > 0
    && messages != [] && messages[|messages| - 1] == Assistant(JStr(reply), [])
    && forall n, a :: LastRequest(sent, n, a) ==>
         CameOf(w.providers(n)(a), w, sent.last.history, messages[..|messages| - 1], reply)
  }

  /** The attempt `a` completed with that text, and called no tool unless it was told to wrap up. */
  predicate CameOf(a: Streaming.Attempt, w: World, asked: seq<Message>, before: seq<Message>, reply: string) {
    && !a.expired && a.ending.Completed? && reply == w.clean(Streaming.TextIn(a.chunks))
    && (|| (asked == before && Streaming.Fragments(a.chunks) == [])
        || asked == before + [User(JStr("[wrap up]"))])
  }

  /** An answer is the peer's own words or the model's. */
  ghost predicate Grounded(w: World, ts: List<ToolLog>, sent: List<Sent>, messages: seq<Message>, reply: string) {
    (reply != "" && PeerSaid(ts, reply)) || Said(w, sent, messages, reply)
  }

  /**
   * What a final reply may be. A workgroup turn has none; in relay mode it is the fixed reply, the
   * reason of a decline, or an answer given once the peer has replied.
   */
  ghost predicate Justified(w: World, peer: string, dispatch: bool, ts: List<ToolLog>, sent: List<Sent>,
                      messages: seq<Message>, reply: string) {
    && !dispatch
    && if peer == "" then Grounded(w, ts, sent, messages, reply)
       else || reply == "I can only answer using '" + peer + "' and couldn't consult it for this. Please try again."
            || DeclinedWith(ts, reply)
            || (Replied(ts, peer) && Grounded(w, ts, sent, messages, reply))
  }

  /** A reply cut off by an interrupt: it ends the history, and with replay off it is what was shown last. */
  ghost predicate CutOff(replay: bool, es: List<Event>, sent: List<Sent>, messages: seq<Message>, text: string) {
    && messages != [] && messages[|messages| - 1] == Assistant(JStr(text), [])
    && sent.Snoc? && (!replay ==> ShownLast(Shown(es), text, Size(sent) - 1))
  }

  /** The last text shown was one attempt's of the call `call`, and adds up to `text`. */
  ghost predicate ShownLast(shown: List<Event>, text: string, call: nat) {
    exists before :: ShowsOneAttempt(shown, before, text, call)
  }

  /** A fragment makes a call. */
  lemma FragmentsMakeCalls(fs: seq<Chunks.Fragment>)
    requires fs != []
    ensures ToolCalls.FinalCalls(ToolCalls.AddAll(map[], fs)) != []
  {
    var k, acc := fs[0].index, ToolCalls.AddAll(map[], fs);
    assert ToolCalls.Mentions(fs, k);
    ToolCalls.EntryIsItsFragments(fs, k);
    assert k in acc.Keys;
    assert ToolCalls.Order(acc) != [];
  }

  /** The reply of the last request, once it is stored. */
  lemma SaysIt(w: World, sent: List<Sent>, base: seq<Message>, messages: seq<Message>, text: string,
               calls: seq<ToolCalls.Entry>, wrapping: bool)
    requires sent.Snoc? && sent.last.requests > 0
    requires sent.last.history == if wrapping then base + [User(JStr("[wrap up]"))] else base
    requires forall n, a :: LastRequest(sent, n, a) ==> Streaming.MadeBy(w.providers(n), a, text, calls)
    requires wrapping || calls == []
    requires messages == base + [Assistant(JStr(w.clean(text)), [])]
    ensures Said(w, sent, messages, w.clean(text))
  {
    assert messages[..|messages| - 1] == base;
    forall n: nat, a: nat | LastRequest(sent, n, a) ensures CameOf(w.providers(n)(a), w, sent.last.history, base, w.clean(text)) {
      assert Streaming.MadeBy(w.providers(n), a, text, calls);
      var fs := Streaming.Fragments(w.providers(n)(a).chunks);
      if !wrapping && fs != [] {
        FragmentsMakeCalls(fs);
      }
    }
  }

  /** The words that mark a continuation, once. */
  function WithMark(text: string): string {
    if exists i :: 0 <= i <= |text| && StandsAt(text, "(continuation)", i) then text else text + " " + "(continuation)"
  }

  lemma MarkTwice(text: string)
    ensures WithMark(WithMark(text)) == WithMark(text)
  {
    var marked := text + " " + "(continuation)";
    assert StandsAt(marked, "(continuation)", |text| + 1);
  }

  /** The turn's relay flags. */
  datatype Relay = Relay(consulted: bool, forwarded: bool, declined: string)

  /** How one tool result moves the flags; a workgroup handoff does not. */
  function RelayNext(r: Relay, peer: string, t: ToolLog): Relay {
    if t.how.Posted? then r
    else
      Relay(r.consulted || (t.ok && PeerReply(t.output) != ""),
            r.forwarded || (t.how.Ran? && t.call.name != "decline"),
            if Declines(t) then Strip(t.output) else r.declined)
  }

  function RelayState(ts: List<ToolLog>, peer: string): Relay {
    if ts.Nil? then Relay(false, false, "") else RelayNext(RelayState(ts.front, peer), peer, ts.last)
  }

  /** What relay mode lets a call do: nothing after a decline, no decline after a consultation. */
  predicate RelayAllows(r: Relay, peer: string, t: ToolLog) {
    && (t.ok ==> t.how.Ran?)
    && (t.how.Ran? ==>
          && r.declined == ""
          && (t.call.name == "decline" || Forwards(t, peer))
          && (t.call.name == "decline" ==> !r.forwarded))
  }

  /** The last call obeyed the relay rules as they stood before it. */
  predicate Obeyed(ts: List<ToolLog>, peer: string) {
    ts.Snoc? ==> ts.last.how.Posted? || RelayAllows(RelayState(ts.front, peer), peer, ts.last)
  }

  /** Every call obeyed the relay rules, and the flags follow from the log. */
  ghost predicate RelayInv(ts: List<ToolLog>, peer: string, r: Relay) {
    forall start :: Begins(ts, start) ==> Obeyed(start, peer) && (start == ts ==> r == RelayState(start, peer))
  }

  lemma RelayInvStart(peer: string)
    ensures RelayInv(Nil, peer, Relay(false, false, ""))
  {
  }

  /** One more call that obeys the rules. */
  lemma RelayInvNext(ts: List<ToolLog>, peer: string, r: Relay, t: ToolLog)
    requires RelayInv(ts, peer, r) && (t.how.Posted? || RelayAllows(r, peer, t))
    ensures RelayInv(Snoc(ts, t), peer, RelayNext(r, peer, t))
  {
    assert Begins(ts, ts);
    forall start | Begins(Snoc(ts, t), start)
      ensures Obeyed(start, peer) && (start == Snoc(ts, t) ==> RelayNext(r, peer, t) == RelayState(start, peer))
    {
      assert start == Snoc(ts, t) || Begins(ts, start);
      BeginsShorter(ts, start);
    }
  }

  lemma {:induction false} BeginsShorter(ts: List<ToolLog>, start: List<ToolLog>)
    ensures Begins(ts, start) ==> Size(start) <= Size(ts)
  {
    if ts.Snoc? {
      BeginsShorter(ts.front, start);
    }
  }

  /**
   * What the rules amount to: only the configured peer is ever consulted, the flags mean what
   * they are called, and no turn both consults the peer and has a decline accepted.
   */
  lemma {:induction false} RelayMeaning(ts: List<ToolLog>, peer: string, r: Relay)
    requires RelayInv(ts, peer, r)
    ensures RelayOnly(ts, peer)
    ensures r.forwarded <==> Forwarded(ts, peer)
    ensures r.declined != "" <==> Declined(ts)
    ensures r.declined != "" ==> DeclinedWith(ts, r.declined)
    ensures r.consulted ==> r.declined != "" || Replied(ts, peer)
    ensures !(Forwarded(ts, peer) && Declined(ts))
  {
    assert Begins(ts, ts);
    if ts.Snoc? {
      forall start | Begins(ts.front, start) ensures Obeyed(start, peer) {
        assert Begins(ts, start);
      }
      RelayMeaning(ts.front, peer, RelayState(ts.front, peer));
      BlankHasNoReply(ts.last.output);
    }
  }

  lemma BlankHasNoReply(payload: string)
    ensures Strip(payload) == "" ==> PeerReply(payload) == ""
  {
  }

  /** `_last_peer_reply`: the reply when `peer` is the most recent successful tool. */
  function LastPeerReply(ts: List<ToolLog>): string {
    if ts.Nil? then ""
    else if !ts.last.ok then LastPeerReply(ts.front)
    else if ts.last.call.name != "peer" then ""
    else PeerReply(PeerReply(ts.last.payload))
  }

  // ---------- the turn ----------

  datatype TurnLog = TurnLog(assistant: string, tools: List<ToolLog>, interrupted: bool)

  /** One `llm.stream` call: the history it was given, and how many provider requests it made. */
  datatype Sent = Sent(history: seq<Message>, requests: nat)

  datatype Flow = Continue | Break | Return

  datatype Exit = Normal | Escaped

  /** A call that ran in parallel, with its number and its result. */
  datatype Outcome = Outcome(number: nat, call: ToolCalls.Entry, result: ToolResult)

  datatype Posted = PostOk | PostRefused | PostRaised

  ghost predicate PairedAll(sent: List<Sent>) {
    forall s :: Includes(sent, s) ==> WellPaired(s.history)
  }

  ghost predicate RequestsBounded(sent: List<Sent>, maxRetries: int) {
    forall s :: Includes(sent, s) ==> s.requests <= Max(0, maxRetries) + 1
  }

  /** Provider requests made in all. */
  function Requests(sent: List<Sent>): nat {
    if sent.Nil? then 0 else Requests(sent.front) + sent.last.requests
  }

  /** All requests together stay within calls times `max_retries + 1`. */
  lemma {:induction false} TotalRequests(sent: List<Sent>, maxRetries: int)
    requires RequestsBounded(sent, maxRetries)
    ensures Requests(sent) <= Size(sent) * (Max(0, maxRetries) + 1)
  {
    if sent.Snoc? {
      IncludesLast(sent.front, sent.last);
      TotalRequests(sent.front, maxRetries);
    }
  }

  /** What an error says. */
  method Wording() returns (s: string) {
    s := *;
  }

  /** Anything outside may answer yes or no. */
  method Chance() returns (b: bool) {
    b := *;
  }

  /** The calls as the history records them. */
  function Wire(w: World, calls: seq<ToolCalls.Entry>): (wired: seq<Call>)
    ensures |wired| == |calls|
    ensures forall i :: 0 <= i < |calls| ==> wired[i] == Call(calls[i].id, calls[i].name, w.decode(calls[i]).wire)
  {
    seq(|calls|, i requires 0 <= i < |calls| => Call(calls[i].id, calls[i].name, w.decode(calls[i]).wire))
  }

  lemma PairedNext(ms: seq<Message>, m: Message)
    requires WellPaired(ms) && (m.System? || m.User? || (m.Assistant? && m.calls == []))
    ensures WellPaired(ms + [m])
  {
    PairedUnit([m]);
    assert [m][1..] == [];
    PairedConcat(ms, [m]);
  }

  lemma PairedGroup(base: seq<Message>, m: Message, replies: seq<Message>)
    requires WellPaired(base) && m.Assistant? && Answers(m.calls, replies)
    ensures WellPaired(base + [m] + replies)
  {
    GroupPaired(m, replies);
    PairedConcat(base, [m] + replies);
    assert base + [m] + replies == base + ([m] + replies);
  }

  lemma GroupPaired(m: Message, replies: seq<Message>)
    requires m.Assistant? && Answers(m.calls, replies)
    ensures WellPaired([m] + replies)
  {
    var group := [m] + replies;
    PairedUnit(group);
    assert group[1..|replies| + 1] == replies;
    assert group[|replies| + 1..] == [];
  }

  /** The history after the turn-start compaction check. */
  function AutoCompacted(ms: seq<Message>, window: int, summarize: Compaction.Summarizer): seq<Message> {
    if Compaction.ShouldCompact(ms, "", window, Compaction.DEFAULT_POLICY)
    then Compaction.Compact(ms, "", window, summarize, Compaction.DEFAULT_POLICY, false).messages
    else ms
  }

  /** Would that compaction fire with a cut inside a call group? */
  predicate FiresUnsafely(ms: seq<Message>, window: int, summarize: Compaction.Summarizer) {
    && Compaction.Fires(ms, "", window, summarize, Compaction.DEFAULT_POLICY, false)
    && !Compaction.CutsSafe(ms, Compaction.DEFAULT_POLICY.keepHead, Compaction.DEFAULT_POLICY.keepTail)
  }

  lemma AutoCompactionPairing(ms: seq<Message>, window: int, summarize: Compaction.Summarizer)
    requires WellPaired(ms)
    ensures WellPaired(AutoCompacted(ms, window, summarize)) <==> !FiresUnsafely(ms, window, summarize)
  {
    Compaction.CompactionPairing(ms, "", window, summarize, Compaction.DEFAULT_POLICY, false);
    Compaction.TruncationNeverCostsTokens(ms);
  }

  class Turn {
    // configuration
    const relayPeer: string
    const dispatch: bool
    const memberTurn: bool
    const closureOnly: bool
    const unattended: bool
    const hasDeadline: bool
    const maxSteps: int
    const maxRetries: int
    const fallbacks: seq<string>
    const window: int
    const summarize: Compaction.Summarizer
    const world: World

    // session
    var messages: seq<Message>
    var turns: seq<TurnLog>

    // the turn's state
    var interrupt: bool
    var interrupted: bool
    var events: List<Event>
    var tools: List<ToolLog>
    var produced: bool
    var finalAssistant: string
    var failed: bool
    var completed: bool
    var relay: Relay
    var relayRetried: bool
    var deadlineHit: bool
    var emptyRetried: bool
    var escalated: bool
    var failures: nat
    var fallbackQueue: seq<string>
    var model: string
    var handoff: string
    var delivered: bool

    // what the provider was sent
    var sent: List<Sent>
    /** Whether the history was well paired when the step loop began. */
    ghost var paired: bool
    /** The history when the step loop began. */
    ghost var opening: seq<Message>

    predicate Replay() { dispatch || unattended }

    constructor (messages: seq<Message>, turns: seq<TurnLog>, interrupt: bool, relayPeer: string, dispatch: bool,
                 memberTurn: bool, closureOnly: bool, unattended: bool, hasDeadline: bool, maxSteps: int,
                 maxRetries: int, fallbacks: seq<string>, model: string, window: int,
                 summarize: Compaction.Summarizer, world: World)
      ensures this.messages == messages && this.turns == turns
      ensures this.relayPeer == relayPeer && this.maxSteps == maxSteps && this.maxRetries == maxRetries
      ensures this.fallbacks == fallbacks && this.window == window && this.summarize == summarize
      ensures this.dispatch == dispatch && this.memberTurn == memberTurn && this.closureOnly == closureOnly
      ensures this.unattended == unattended && this.hasDeadline == hasDeadline
      ensures this.world == world && this.interrupt == interrupt
      ensures Fresh()
    {
      this.messages, this.turns, this.interrupt := messages, turns, interrupt;
      this.relayPeer, this.dispatch, this.memberTurn, this.closureOnly := relayPeer, dispatch, memberTurn, closureOnly;
      this.unattended, this.hasDeadline, this.maxSteps, this.maxRetries := unattended, hasDeadline, maxSteps, maxRetries;
      this.fallbacks, this.window, this.summarize, this.world := fallbacks, window, summarize, world;
      this.model, this.fallbackQueue := model, fallbacks;
      interrupted, events, tools, produced, finalAssistant := false, Nil, Nil, false, "";
      failed, completed, relay, relayRetried := false, false, Relay(false, false, ""), false;
      deadlineHit, emptyRetried, escalated, failures := false, false, false, 0;
      handoff, delivered, sent, paired, opening := "", false, Nil, true, messages;
    }

    /** Nothing has happened yet. */
    ghost predicate Fresh()
      reads this
    {
      && events == Nil && tools == Nil && sent == Nil && fallbackQueue == fallbacks
      && !failed && !completed && !deadlineHit && !interrupted && relay == Relay(false, false, "") && finalAssistant == ""
    }

    /** A fresh turn is open: nothing has been said, sent or done that could break a promise. */
    lemma FreshIsOpen()
      requires Fresh()
      ensures Open()
    {
      RelayInvStart(relayPeer);
    }

    // ---------- invariants ----------

    ghost predicate Relaying()
      reads this
    {
      if relayPeer != "" then RelayInv(tools, relayPeer, relay) else relay == Relay(false, false, "")
    }

    /** Every log can be trusted, and the relay flags with them. */
    ghost predicate Logged()
      reads this
    {
      Relaying() && AllHonest(world, relayPeer, tools)
    }

    /** Every history sent was paired, and every call kept to its retries. */
    ghost predicate SentOk()
      reads this
    {
      (paired ==> PairedAll(sent)) && RequestsBounded(sent, maxRetries)
    }

    /** The history says what the logs say. */
    ghost predicate Answered()
      reads this
    {
      Recounts(world, opening, messages, tools)
    }

    ghost predicate HistoryOk()
      reads this
    {
      (paired ==> forall ms :: ms == messages ==> WellPaired(ms)) && Answered()
    }

    /** The turn goes on: nothing terminal but errors, no reply given. */
    ghost predicate Busy()
      reads this
    {
      && StreamOpen(events, tools, failed)
      && !completed && finalAssistant == "" && !interrupted
      && Logged() && SentOk() && (interrupt || NoneSkipped(tools))
    }

    /** Between tool batches, no accepted decline and no interrupted batch is pending. */
    ghost predicate Open()
      reads this
    {
      Busy() && relay.declined == "" && NoneSkipped(tools)
    }

    /** The turn is over: the event stream is closed and its reply justified. */
    ghost predicate Over()
      reads this
    {
      && StreamClosed(events, tools, completed, finalAssistant)
      && Logged() && SentOk() && (interrupted || NoneSkipped(tools))
      && ReplyOk()
    }

    /** The final reply is justified; without one the turn has said nothing, or was cut off. */
    ghost predicate ReplyOk()
      reads this
    {
      forall text :: Kept(finalAssistant, text) ==>
        if Finals(events) == 1 then Justified(world, relayPeer, dispatch, tools, sent, messages, text)
        else text == "" || (interrupted && CutOff(Replay(), events, sent, messages, text))
    }

    /** The text may be the final reply. */
    ghost predicate Warranted(text: string)
      reads this
    {
      forall t :: Kept(text, t) ==> Justified(world, relayPeer, dispatch, tools, sent, messages, t)
    }

    // ---------- small steps ----------

    method Poll()
      modifies this`interrupt
      ensures old(interrupt) ==> interrupt
    {
      var b := Chance();
      interrupt := interrupt || b;
    }

    method Emit(e: Event)
      modifies this`events
      ensures events == Snoc(old(events), e)
      ensures Dones(events) == Dones(old(events)) + if e.Done? then 1 else 0
      ensures Finals(events) == Finals(old(events)) + if IsFinal(e) then 1 else 0
      ensures Ended(events) == (IsTerminal(e) || Ended(old(events)))
      ensures Logs(events) == if e.ToolEnd? then Snoc(Logs(old(events)), e.log) else Logs(old(events))
      ensures Shown(events) == if e.Delta? then Snoc(Shown(old(events)), e) else Shown(old(events))
    {
      events := Snoc(events, e);
    }

    method FinalizeInterrupt()
      requires Busy()
      modifies this`events, this`interrupt, this`interrupted
      ensures Over() && Finals(events) == 0 && Dones(events) == 0
      ensures interrupted && !interrupt && events == Snoc(old(events), Interrupted)
    {
      Emit(Interrupted);
      interrupt, interrupted := false, true;
    }

    method Fail()
      requires Busy()
      modifies this`events, this`failed
      ensures Busy() && failed && events == Snoc(old(events), Error)
    {
      Emit(Error);
      failed := true;
    }

    /** A failed turn may simply stop. */
    lemma FailedIsOver()
      requires Busy() && failed && NoneSkipped(tools)
      ensures Over()
    {
    }

    /** Closes the turn with a reply. */
    method Reply(text: string, natural: bool)
      requires StreamOpen(events, tools, failed) && !completed && Logged() && SentOk() && NoneSkipped(tools)
      requires Warranted(text)
      modifies this`events, this`finalAssistant, this`completed, this`failed
      ensures Over() && finalAssistant == text
      ensures completed == natural && failed == (old(failed) || !natural)
      ensures events == Snoc(Snoc(old(events), AssistantDone(text, true)), Done)
    {
      Emit(AssistantDone(text, true));
      finalAssistant := text;
      if natural { completed := true; } else { failed := true; }
      Emit(Done);
    }

    /** Closes the turn without a reply of its own. */
    method Finish()
      requires Busy() && NoneSkipped(tools)
      modifies this`events, this`completed
      ensures Over() && completed && events == Snoc(old(events), Done)
    {
      completed := true;
      Emit(Done);
    }

    // ---------- one model call ----------

    /** A finished stream ends in a final chunk made, like the text kept, by the attempt in progress. */
    ghost predicate Finishes(r: Streaming.Result, call: nat) {
      && r.outputs != [] && r.outputs[|r.outputs| - 1].Final?
      && Streaming.MadeBy(world.providers(call), Streaming.Resets(r.outputs), Streaming.Kept(r.outputs),
                          r.outputs[|r.outputs| - 1].calls)
    }

    /** Hands `history` to `llm.stream`. */
    method OpenStream(history: seq<Message>) returns (r: Streaming.Result, call: nat)
      requires SentOk() && (paired ==> WellPaired(history))
      modifies this`sent
      ensures SentOk() && Size(sent) == Size(old(sent)) + 1
      ensures Streaming.Tagged(r.outputs, 0)
      ensures !Replay() ==> Streaming.NothingShownIsRetried(r.outputs)
      ensures sent.Snoc? && sent.last == Sent(history, r.requests) && call == Size(sent) - 1
      ensures OutOfBudget() == (r.end == Streaming.OutOfBudget)
      ensures r.end == Streaming.Finished ==> Finishes(r, call) && r.requests == Streaming.Resets(r.outputs) + 1
    {
      call := Size(sent);
      var provider := world.providers(call);
      r := Streaming.Stream(provider, Replay(), maxRetries);
      Streaming.OutputsTagged(provider, Replay(), maxRetries, 0);
      Streaming.RequestsBounded(provider, Replay(), maxRetries, 0);
      if !Replay() {
        Streaming.NothingShownUnlessReplaying(provider, maxRetries, 0);
      }
      Streaming.FinishedIsMadeBy(provider, Replay(), maxRetries);
      IncludesLast(sent, Sent(history, r.requests));
      sent := Snoc(sent, Sent(history, r.requests));
    }

    /** What one chunk does to the text held and to the event stream. */
    method Absorb(o: Streaming.Output, call: nat, held: string) returns (text: string)
      requires o.Norm? && StreamOpen(events, tools, failed)
      modifies this`events
      ensures StreamOpen(events, tools, failed)
      ensures text == held + o.chunk.text
      ensures Shown(events) ==
              if o.chunk.text != "" then Snoc(Shown(old(events)), Delta(o.chunk.text, call, o.attempt)) else Shown(old(events))
    {
      if o.chunk.reasoning != "" {
        Emit(ReasoningDelta);
      }
      text := held + o.chunk.text;
      if o.chunk.text != "" {
        Emit(Delta(o.chunk.text, call, o.attempt));
      }
      if o.chunk.calls != [] {
        Emit(ModelState);
      }
    }

    /** The `for chunk in llm.stream(...)` loop of a step. */
    method Consume(r: Streaming.Result, call: nat) returns (text: string, calls: seq<ToolCalls.Entry>, raised: bool, ghost attempt: nat)
      requires StreamOpen(events, tools, failed)
      requires Streaming.Tagged(r.outputs, 0)
      requires !Replay() ==> Streaming.NothingShownIsRetried(r.outputs)
      requires r.end == Streaming.Finished ==> Finishes(r, call)
      modifies this`events, this`interrupt, this`deadlineHit
      ensures StreamOpen(events, tools, failed)
      ensures old(interrupt) ==> interrupt
      ensures !Replay() ==> Holds(Shown(events), Shown(old(events)), call, attempt, text)
      ensures !raised && !interrupt && !deadlineHit ==>
                && r.end == Streaming.Finished
                && text == Streaming.Kept(r.outputs)
                && calls == r.outputs[|r.outputs| - 1].calls
                && attempt == Streaming.Resets(r.outputs)
      ensures deadlineHit ==> old(deadlineHit) || !raised
    {
      text, calls, raised, attempt := "", [], false, 0;
      ghost var before, first := Shown(events), 0;
      var outs := r.outputs;
      for i := 0 to |outs|
        invariant StreamOpen(events, tools, failed)
        invariant old(interrupt) ==> interrupt
        invariant Taken(outs, i, before, call, attempt, first, text)
        invariant deadlineHit == old(deadlineHit)
        invariant i > 0 && outs[i - 1].Final? ==> calls == outs[i - 1].calls
      {
        var go;
        go, text, attempt, first := TakeOne(outs, i, before, call, attempt, first, text);
        if !go {
          return;
        }
        if outs[i].Final? {
          calls := outs[i].calls;
        }
      }
      assert outs[..|outs|] == outs;
      raised := r.end != Streaming.Finished;
    }

    /** What the first `i` outputs have come to: the attempt reached, the text held, and what was shown of it. */
    ghost predicate Taken(outs: seq<Streaming.Output>, i: nat, before: List<Event>, call: nat, attempt: nat, first: nat, text: string)
      reads this
    {
      && i <= |outs| && attempt == Streaming.Resets(outs[..i]) && text == Streaming.Kept(outs[..i])
      && (!Replay() ==> Holds(Shown(events), before, call, attempt, text))
      && (!Replay() && Shown(events) != before ==> first < i && Streaming.Shows(outs[first]))
    }

    /** One pass of the loop; it stops at an interrupt or a deadline. */
    method TakeOne(outs: seq<Streaming.Output>, i: nat, ghost before: List<Event>, call: nat, ghost attempt: nat,
                   ghost first: nat, held: string)
      returns (go: bool, text: string, ghost attempt': nat, ghost first': nat)
      requires StreamOpen(events, tools, failed) && i < |outs| && Streaming.Tagged(outs, 0)
      requires !Replay() ==> Streaming.NothingShownIsRetried(outs)
      requires Taken(outs, i, before, call, attempt, first, held)
      modifies this`events, this`interrupt, this`deadlineHit
      ensures StreamOpen(events, tools, failed) && (old(interrupt) ==> interrupt)
      ensures go ==> Taken(outs, i + 1, before, call, attempt', first', text) && deadlineHit == old(deadlineHit)
      ensures !go ==>
                && (interrupt || deadlineHit)
                && (!Replay() ==> Holds(Shown(events), before, call, attempt', text))
    {
      text, attempt', first' := held, attempt, first;
      Poll();
      if interrupt {
        return false, text, attempt', first';
      }
      Streaming.OneMore(outs, i);
      var o := outs[i];
      if o.Final? {
        return true, text, attempt', first';
      }
      var late := Chance();
      if hasDeadline && late {
        deadlineHit := true;
        return false, text, attempt', first';
      }
      if o.RetryReset? {
        if !Replay() {
          Streaming.NothingBeforeReset(outs, first, i);
        }
        return true, "", attempt + 1, first';
      }
      Streaming.DeltaOfAttempt(outs, i, attempt);
      if Streaming.Shows(o) {
        if !Replay() {
          SourceAppends(Shown(events), before, Delta(o.chunk.text, call, attempt), call, attempt, text);
        }
        first' := i;
      }
      text := Absorb(o, call, text);
      go := true;
    }

    /** Takes the next usable fallback model, if any is left. */
    method FallBack() returns (applied: bool)
      requires StreamOpen(events, tools, failed)
      modifies this`events, this`fallbackQueue, this`model
      ensures StreamOpen(events, tools, failed) && Shown(events) == Shown(old(events))
      ensures |fallbackQueue| <= |old(fallbackQueue)|
      ensures applied ==> |fallbackQueue| < |old(fallbackQueue)| && model != old(model) && model in old(fallbackQueue)
      ensures !applied ==> fallbackQueue == [] && model == old(model) && events == old(events)
    {
      applied := false;
      while fallbackQueue != []
        invariant |fallbackQueue| <= |old(fallbackQueue)| && forall m :: m in fallbackQueue ==> m in old(fallbackQueue)
        invariant events == old(events) && model == old(model)
        decreases |fallbackQueue|
      {
        var candidate := fallbackQueue[0];
        fallbackQueue := fallbackQueue[1..];
        if candidate == model {
          continue;
        }
        var resolved := Chance();
        if !resolved {
          continue;
        }
        model := candidate;
        Emit(Routing);
        applied := true;
        return;
      }
    }

    /** What a call that did not raise brought, if nothing had been shown after `before` when it began. */
    ghost predicate Heard(before: List<Event>, text: string, calls: seq<ToolCalls.Entry>)
      reads this
    {
      && sent.Snoc?
      && (!Replay() ==> ShowsOneAttempt(Shown(events), before, text, Size(sent) - 1))
      && (!interrupt ==> FromLastAttempt(world.providers, sent, messages, Replay(), Shown(events), before, text, calls))
    }

    lemma HearsAttempt(before: List<Event>, text: string, calls: seq<ToolCalls.Entry>, call: nat, attempt: nat)
      requires sent.Snoc? && call == Size(sent) - 1
      requires !Replay() ==> Holds(Shown(events), before, call, attempt, text)
      requires !interrupt ==> sent.last == Sent(messages, attempt + 1) && Streaming.MadeBy(world.providers(call), attempt, text, calls)
      ensures Heard(before, text, calls)
    {
      if !Replay() {
        OneSourceShows(Shown(events), before, text, call, attempt);
      }
      if !interrupt {
        IsFromLastAttempt(world.providers, sent, messages, Replay(), Shown(events), before, text, calls, attempt);
      }
    }

    /** The loop once more, seen from where the step began. */
    method Take(ghost before: List<Event>, r: Streaming.Result, call: nat)
      returns (text: string, calls: seq<ToolCalls.Entry>, raised: bool, ghost attempt: nat)
      requires StreamOpen(events, tools, failed) && (!Replay() ==> Shown(events) == before)
      requires Streaming.Tagged(r.outputs, 0)
      requires !Replay() ==> Streaming.NothingShownIsRetried(r.outputs)
      requires r.end == Streaming.Finished ==> Finishes(r, call) && r.requests == Streaming.Resets(r.outputs) + 1
      requires sent.Snoc? && sent.last == Sent(messages, r.requests) && call == Size(sent) - 1
      modifies this`events, this`interrupt, this`deadlineHit
      ensures StreamOpen(events, tools, failed) && (old(interrupt) ==> interrupt)
      ensures !Replay() ==> Holds(Shown(events), before, call, attempt, text) && (text == "" ==> Shown(events) == before)
      ensures !raised && !deadlineHit ==> Heard(before, text, calls)
      ensures deadlineHit ==> old(deadlineHit) || !raised
    {
      text, calls, raised, attempt := Consume(r, call);
      if !Replay() {
        SourceGrows(Shown(events), before, call, attempt);
      }
      if !raised && !deadlineHit {
        HearsAttempt(before, text, calls, call, attempt);
      }
    }

    /** The last call ended because the turn's time was up. */
    ghost predicate OutOfBudget()
      reads this
    {
      forall n: nat :: Size(sent) == n + 1 ==>
        Streaming.Outcome(world.providers(n), Replay(), maxRetries, 0).end == Streaming.OutOfBudget
    }

    /** Opens a stream on the history and takes it in; `spent` when the turn's time ran out inside it. */
    method Receive(ghost before: List<Event>) returns (raised: bool, spent: bool, text: string, calls: seq<ToolCalls.Entry>)
      requires Open() && HistoryOk() && !deadlineHit && (!Replay() ==> Shown(events) == before)
      modifies this`events, this`interrupt, this`deadlineHit, this`sent
      ensures Open() && Size(sent) == Size(old(sent)) + 1
      ensures old(interrupt) ==> interrupt
      ensures raised ==> !deadlineHit && spent == OutOfBudget()
      ensures !raised && !deadlineHit ==> Heard(before, text, calls)
      ensures !Replay() && text == "" ==> Shown(events) == before
    {
      var r, call := OpenStream(messages);
      ghost var attempt;
      text, calls, raised, attempt := Take(before, r, call);
      spent := r.end == Streaming.OutOfBudget;
    }

    /** One `llm.stream` call of a step, and what follows it: `again` when a fallback model takes over. */
    method TryModel(ghost before: List<Event>) returns (flow: Flow, again: bool, text: string, calls: seq<ToolCalls.Entry>)
      requires Open() && HistoryOk() && !deadlineHit && (!Replay() ==> Shown(events) == before)
      modifies this`events, this`interrupt, this`deadlineHit, this`sent, this`fallbackQueue, this`model, this`failed
      ensures flow == Return ==> Over() && !interrupted
      ensures flow != Return ==> Open() && (flow == Break <==> deadlineHit)
      // out of time is no failure; a failure ends the turn once no fallback is left or text was shown
      ensures flow == Return || again ==> !OutOfBudget()
      ensures flow == Return ==> fallbackQueue == [] || (!dispatch && text != "")
      ensures again ==> flow == Continue && |fallbackQueue| < |old(fallbackQueue)|
      ensures |fallbackQueue| <= |old(fallbackQueue)| && Size(sent) == Size(old(sent)) + 1
      ensures flow == Continue && again && !Replay() ==> Shown(events) == before
      ensures flow == Continue && !again ==> Heard(before, text, calls)
      ensures old(interrupt) ==> interrupt
    {
      again := false;
      var raised, spent;
      raised, spent, text, calls := Receive(before);
      if !raised {
        flow := if deadlineHit then Break else Continue;
        return;
      }
      var late := Chance();
      if spent || (hasDeadline && late) {
        deadlineHit := true;
        flow := Break;
        return;
      }
      if dispatch {
        text := "";
      }
      again := Recover(text);
      flow := if again then Continue else Return;
    }

    /** The call failed: a fallback model takes over if nothing was shown, or the turn ends. */
    method Recover(text: string) returns (again: bool)
      requires Open()
      modifies this`events, this`fallbackQueue, this`model, this`failed
      ensures |fallbackQueue| <= |old(fallbackQueue)|
      ensures if again then Open() && text == "" && Shown(events) == Shown(old(events)) && |fallbackQueue| < |old(fallbackQueue)|
              else Over() && (text == "" ==> fallbackQueue == [])
    {
      again := false;
      if text == "" {
        again := FallBack();
      }
      if !again {
        Fail();
        FailedIsOver();
      }
    }

    /** Interrupts and the deadline are looked at before every step and every call. */
    method BeforeCall() returns (flow: Flow)
      requires Open() && !deadlineHit
      modifies this`events, this`interrupt, this`interrupted, this`deadlineHit
      ensures flow == Return ==> Over() && interrupted && finalAssistant == "" && Shown(events) == Shown(old(events))
      ensures flow != Return ==> Open() && events == old(events) && (flow == Break <==> deadlineHit)
    {
      Poll();
      if interrupt {
        FinalizeInterrupt();
        return Return;
      }
      var late := Chance();
      if hasDeadline && late {
        deadlineHit := true;
        return Break;
      }
      flow := Continue;
    }

    /**
     * One step's model call, retried on fallback models. With replay off, everything shown comes
     * from one provider attempt and adds up to the text held; each `llm.stream` call is paid for
     * by the step or by a fallback model used up.
     */
    method CallModel() returns (flow: Flow, text: string, calls: seq<ToolCalls.Entry>)
      requires Open() && HistoryOk() && !deadlineHit
      modifies this`events, this`interrupt, this`interrupted, this`deadlineHit, this`sent, this`fallbackQueue,
               this`model, this`failed
      ensures flow == Return ==> Over()
      ensures flow == Return && interrupted ==> finalAssistant == "" && (!Replay() ==> Shown(events) == Shown(old(events)))
      ensures flow == Return && !interrupted ==> !OutOfBudget() && (dispatch ==> fallbackQueue == [])
      ensures flow != Return ==> Open() && (flow == Break <==> deadlineHit)
      ensures Size(sent) + |fallbackQueue| <= Size(old(sent)) + |old(fallbackQueue)| + 1
      ensures Size(sent) >= Size(old(sent)) && (flow == Continue ==> Size(sent) > Size(old(sent)))
      ensures flow == Continue ==> Heard(Shown(old(events)), text, calls)
    {
      ghost var before := Shown(events);
      text, calls := "", [];
      while true
        invariant Open() && !deadlineHit
        invariant Size(sent) + |fallbackQueue| <= Size(old(sent)) + |old(fallbackQueue)|
        invariant Size(sent) >= Size(old(sent))
        invariant !Replay() ==> Shown(events) == before
        decreases |fallbackQueue|
      {
        flow := BeforeCall();
        if flow != Continue {
          return;
        }
        var again;
        flow, again, text, calls := TryModel(before);
        if !again {
          return;
        }
      }
    }

    // ---------- history ----------

    /** Appends a message that opens no call group. */
    method Append(m: Message)
      requires m.System? || m.User? || (m.Assistant? && m.calls == [])
      modifies this`messages
      ensures messages == old(messages) + [m]
      ensures WellPaired(old(messages)) ==> WellPaired(messages)
      ensures old(Answered()) ==> Answered()
    {
      if WellPaired(messages) {
        PairedNext(messages, m);
      }
      ghost var before, had := messages, Answered();
      messages := messages + [m];
      if had {
        RecountsNext(world, opening, before, tools, m, tools);
      }
    }

    /** Appends a user message in the engine's own voice. */
    method Nudge()
      requires HistoryOk()
      modifies this`messages
      ensures HistoryOk()
    {
      Append(User(JStr("[engine]")));
    }

    /** Interrupted while the model was speaking: what it said so far is kept. */
    method KeepPartial(text: string)
      requires Open() && HistoryOk() && sent.Snoc?
      requires !Replay() ==> ShownLast(Shown(events), text, Size(sent) - 1)
      modifies this`events, this`interrupt, this`interrupted, this`messages, this`finalAssistant
      ensures Over() && HistoryOk() && interrupted && finalAssistant == text && Shown(events) == Shown(old(events))
    {
      FinalizeInterrupt();
      if text != "" {
        Append(Assistant(JStr(text), []));
        finalAssistant := text;
      }
    }

    /** Stores a finished reply, with its calls decoded, unless it is a batch past the deadline. */
    method StoreReply(text: string, calls: seq<ToolCalls.Entry>) returns (stored: bool)
      requires Open() && !deadlineHit && Answered()
      modifies this`events, this`deadlineHit, this`messages
      ensures Open() && Shown(events) == Shown(old(events)) && Answered()
      ensures stored == !deadlineHit && (calls == [] ==> stored)
      ensures messages ==
              if stored then old(messages) + [Assistant(JStr(world.clean(text)), Wire(world, calls))] else old(messages)
    {
      Emit(Usage);
      var late := Chance();
      if calls != [] && hasDeadline && late {
        deadlineHit := true;
        stored := false;
      } else {
        stored := true;
        RecountsNext(world, opening, messages, tools, Assistant(JStr(world.clean(text)), Wire(world, calls)), tools);
        messages := messages + [Assistant(JStr(world.clean(text)), Wire(world, calls))];
      }
    }

    /**
     * A model call and its place in the history. On `Continue` the cleaned text of one provider
     * attempt has been stored, with the calls still to be answered; a batch that arrives past the
     * deadline never enters the history.
     */
    method ModelTurn() returns (flow: Flow, text: string, calls: seq<ToolCalls.Entry>)
      requires Open() && HistoryOk() && !deadlineHit
      modifies this`events, this`interrupt, this`interrupted, this`deadlineHit, this`sent, this`fallbackQueue,
               this`model, this`failed, this`messages, this`finalAssistant
      ensures flow == Return ==> Over() && HistoryOk()
      ensures flow == Return && interrupted && !Replay() ==> finalAssistant == TextSince(Shown(events), Shown(old(events)))
      ensures flow != Return ==> Open() && Answered() && (flow == Break <==> deadlineHit)
      ensures flow == Break ==> messages == old(messages)
      ensures flow == Continue ==>
                && messages == old(messages) + [Assistant(JStr(world.clean(text)), Wire(world, calls))]
                && Size(sent) > Size(old(sent))
                && FromLastAttempt(world.providers, sent, old(messages), Replay(), Shown(events), Shown(old(events)), text, calls)
      ensures Size(sent) + |fallbackQueue| <= Size(old(sent)) + |old(fallbackQueue)| + 1
    {
      ghost var before := Shown(events);
      flow, text, calls := CallModel();
      if flow == Continue {
        flow := KeepReply(before, text, calls);
      }
    }

    /** What a completed call brought is stored, or kept as far as it came when the user interrupted. */
    method KeepReply(ghost before: List<Event>, text: string, calls: seq<ToolCalls.Entry>) returns (flow: Flow)
      requires Open() && HistoryOk() && !deadlineHit && Heard(before, text, calls)
      modifies this`events, this`interrupt, this`interrupted, this`deadlineHit, this`messages, this`finalAssistant
      ensures flow == Return ==> Over() && HistoryOk() && (!Replay() ==> finalAssistant == TextSince(Shown(events), before))
      ensures flow != Return ==> Open() && Answered() && (flow == Break <==> deadlineHit)
      ensures flow == Break ==> messages == old(messages)
      ensures flow == Continue ==>
                && messages == old(messages) + [Assistant(JStr(world.clean(text)), Wire(world, calls))]
                && FromLastAttempt(world.providers, sent, old(messages), Replay(), Shown(events), before, text, calls)
    {
      Poll();
      if interrupt {
        KeepPartial(text);
        return Return;
      }
      var stored := StoreReply(text, calls);
      flow := if stored then Continue else Break;
    }

    /** The calls and the text are those of the last request made, on `history`. */
    ghost predicate Spoke(history: seq<Message>, text: string, calls: seq<ToolCalls.Entry>)
      reads this
    {
      && sent.Snoc? && sent.last.history == history && sent.last.requests > 0
      && forall n, a :: LastRequest(sent, n, a) ==> Streaming.MadeBy(world.providers(n), a, text, calls)
    }

    /** The same call, for what it does to the history alone. */
    method Ask() returns (flow: Flow, text: string, calls: seq<ToolCalls.Entry>)
      requires Open() && HistoryOk() && !deadlineHit
      modifies this`events, this`interrupt, this`interrupted, this`deadlineHit, this`sent, this`fallbackQueue,
               this`model, this`failed, this`messages, this`finalAssistant
      ensures flow == Return ==> Over() && HistoryOk()
      ensures flow != Return ==> Open() && Answered() && (flow == Break <==> deadlineHit)
      ensures flow == Break ==> messages == old(messages)
      ensures flow == Continue ==> messages == old(messages) + [Assistant(JStr(world.clean(text)), Wire(world, calls))]
      ensures flow == Continue ==> Spoke(old(messages), text, calls)
      ensures Size(sent) + |fallbackQueue| <= Size(old(sent)) + |old(fallbackQueue)| + 1
    {
      flow, text, calls := ModelTurn();
    }

    /** A reply without tool calls: nudge, retry, hand off, or close the turn. */
    method NoCalls(content: string) returns (flow: Flow, ghost openTodos: bool)
      requires Open() && HistoryOk() && Said(world, sent, messages, content)
      modifies this`events, this`messages, this`finalAssistant, this`completed, this`failed, this`relayRetried,
               this`emptyRetried, this`escalated, this`handoff
      ensures HistoryOk()
      ensures flow == Return ==> Over()
      ensures flow != Return ==> Open()
      // the model is asked again for open todos, once for the peer, and once for an empty reply
      ensures flow == Continue <==>
              || openTodos
              || (relayPeer != "" && !relay.consulted && !old(relayRetried))
              || ((relayPeer != "" ==> relay.consulted) && Strip(content) == "" && !produced && !old(emptyRetried))
      ensures flow == Continue && !openTodos ==> if relayPeer != "" && !relay.consulted then relayRetried else emptyRetried
      ensures flow != Continue ==> messages == old(messages)
      ensures flow == Break ==> dispatch && handoff == Strip(content)
    {
      var todos := Chance();
      openTodos := todos;
      if todos {
        Nudge();
        return Continue, openTodos;
      }
      if relayPeer != "" && !relay.consulted {
        if !relayRetried {
          relayRetried := true;
          Nudge();
          return Continue, openTodos;
        }
        RelayGiveUp();
        return Return, openTodos;
      }
      if Strip(content) == "" && !produced && !emptyRetried {
        RetryEmpty();
        return Continue, openTodos;
      }
      flow := Conclude(content);
    }

    method RetryEmpty()
      requires Open() && HistoryOk()
      modifies this`events, this`messages, this`emptyRetried, this`escalated
      ensures Open() && HistoryOk() && emptyRetried
    {
      emptyRetried := true;
      var stronger := Chance();
      if stronger {
        Escalate();
      }
      Nudge();
    }

    /** The one-shot move to a stronger model. */
    method Escalate()
      requires Open()
      modifies this`events, this`escalated
      ensures Open() && escalated && events == if old(escalated) then old(events) else Snoc(old(events), Routing)
    {
      if !escalated {
        escalated := true;
        Emit(Routing);
      }
    }

    /** The model is done: a workgroup turn hands off, any other one replies with what the model said. */
    method Conclude(content: string) returns (flow: Flow)
      requires Open() && (relayPeer != "" ==> relay.consulted) && Said(world, sent, messages, content)
      modifies this`events, this`finalAssistant, this`completed, this`failed, this`handoff
      ensures flow == Return <==> !dispatch || closureOnly || (memberTurn && Strip(content) != "" && tools == Nil)
      ensures flow == Return ==>
                && Over() && completed
                && events == if !dispatch && (content != "" || produced)
                             then Snoc(Snoc(old(events), AssistantDone(content, true)), Done)
                             else Snoc(old(events), Done)
      ensures flow != Return ==> flow == Break && Open() && handoff == Strip(content) && events == old(events)
    {
      if dispatch && closureOnly {
        Finish();
        return Return;
      }
      if dispatch && Strip(content) != "" && memberTurn && tools.Nil? {
        Finish();
        return Return;
      }
      if dispatch {
        handoff := Strip(content);
        return Break;
      }
      if content != "" || produced {
        if relayPeer != "" {
          RelayMeaning(tools, relayPeer, relay);
        }
        Reply(content, true);
      } else {
        Finish();
      }
      return Return;
    }

    /** The configured peer could not be consulted: the fixed reply, or an error in a workgroup turn. */
    method RelayGiveUp()
      requires Open() && relayPeer != ""
      modifies this`events, this`finalAssistant, this`completed, this`failed
      ensures Over() && failed
      ensures events == if dispatch then Snoc(old(events), Error)
                        else Snoc(Snoc(old(events), AssistantDone(RelayFallback(relayPeer), true)), Done)
    {
      if dispatch {
        Fail();
        FailedIsOver();
      } else {
        Reply(RelayFallback(relayPeer), false);
      }
    }

    // ---------- a tool batch ----------

    /** What call number `n` of the turn gives may be given to `call`, which has the same id. */
    predicate Fair(call: ToolCalls.Entry, o: Outcome, n: nat) {
      && o.call.id == call.id && o.number >= n && (o.number == n ==> o.call == call)
      && o.result == world.run(o.number, o.call)
      && world.decode(call).valid && call.name != "decline"
    }

    /** Answers one call of a batch: exactly one log, and one reply that says what the log says. */
    method AnswerCall(call: ToolCalls.Entry, outcome: Option<Outcome>) returns (ghost log: ToolLog)
      requires Busy() && Answered()
      requires outcome.Some? ==> relayPeer == "" && Fair(call, outcome.value, Size(tools))
      modifies this`events, this`messages, this`tools, this`relay, this`failures, this`produced, this`delivered
      ensures Busy() && Answered()
      ensures Filed(old(tools), old(messages), log) && log.call == call
      ensures if outcome.Some? then Carries(log, outcome.value) else log.how == Ran(Size(old(tools)), call) || log.how.Refused?
      ensures delivered == (old(delivered) || (dispatch && Delivers(world, log)))
    {
      var l := LogOf(call, outcome);
      Record(l);
      NoteResult(call, l.ok);
      log := l;
    }

    /** The log was added to `before`, and the reply that goes with it to `history`. */
    ghost predicate Filed(before: List<ToolLog>, history: seq<Message>, log: ToolLog)
      reads this
    {
      tools == Snoc(before, log) && messages == history + [ReplyTo(world, log)]
    }

    /** What a call comes to: its parallel outcome, a run here and now, or a refusal. */
    method LogOf(call: ToolCalls.Entry, outcome: Option<Outcome>) returns (log: ToolLog)
      requires Busy()
      requires outcome.Some? ==> relayPeer == "" && Fair(call, outcome.value, Size(tools))
      modifies this`events
      ensures Busy() && log.call == call && AllHonest(world, relayPeer, Snoc(tools, log))
      ensures if outcome.Some? then Carries(log, outcome.value) else log.how == Ran(Size(tools), call) || log.how.Refused?
      ensures relayPeer != "" ==> RelayAllows(relay, relayPeer, log)
    {
      var d := world.decode(call);
      if outcome.Some? {
        var o := outcome.value;
        log := ToolLog(call, d.peerId, Ran(o.number, o.call), o.result.ok, o.result.output, Payload(world, call.name, o.result));
        HonestNext(world, relayPeer, tools, log);
        return;
      }
      Emit(ToolStart(call.id, call.name));
      if relayPeer != "" {
        RelayMeaning(tools, relayPeer, relay);
      }
      if d.valid && RunsHere(call.name, d.peerId) {
        var r := world.run(Size(tools), call);
        log := ToolLog(call, d.peerId, Ran(Size(tools), call), r.ok, r.output, Payload(world, call.name, r));
      } else {
        var why := Wording();
        log := ToolLog(call, d.peerId, Refused(why), false, "", Payload(world, call.name, ToolResult(false, "", why)));
      }
      HonestNext(world, relayPeer, tools, log);
    }

    /** The counters and flags a result moves. */
    method NoteResult(call: ToolCalls.Entry, ok: bool)
      modifies this`failures, this`produced, this`delivered
      ensures failures == if ok then 0 else old(failures) + 1
      ensures delivered == (old(delivered) || (dispatch && ok && call.name == "workgroup_post"
                                               && world.decode(call).toGroup && !world.decode(call).working))
      ensures old(produced) ==> produced
      ensures produced ==> old(produced) || (ok && (call.name == "skill" || call.name == "attach_file"))
    {
      failures := if ok then 0 else failures + 1;
      var d := world.decode(call);
      if ok && dispatch && call.name == "workgroup_post" && d.toGroup {
        delivered := delivered || !d.working;
      }
      var attached := Chance();
      if ok && (call.name == "skill" || call.name == "attach_file") && attached {
        produced := true;
      }
    }

    /** The relay flags after a call. */
    method NoteRelay(log: ToolLog)
      requires RelayAllows(relay, relayPeer, log) && !log.how.Posted?
      modifies this`relay
      ensures relay == RelayNext(old(relay), relayPeer, log)
    {
      if log.call.name == "decline" && log.how.Ran? && log.ok && Strip(log.output) != "" {
        relay := relay.(declined := Strip(log.output));
      }
      if log.how.Ran? && log.call.name != "decline" {
        relay := relay.(forwarded := true);
      }
      if log.ok && PeerReply(log.output) != "" {
        relay := relay.(consulted := true);
      }
    }

    /** Files the result of a call: the reply, the log, the event, and what it means for the relay. */
    method Record(log: ToolLog)
      requires Busy() && Answered() && !log.how.Posted? && AllHonest(world, relayPeer, Snoc(tools, log))
      requires relayPeer != "" ==> RelayAllows(relay, relayPeer, log)
      requires log.how.Skipped? ==> interrupt
      modifies this`events, this`messages, this`tools, this`relay
      ensures Busy() && Answered() && Filed(old(tools), old(messages), log)
    {
      if relayPeer != "" {
        RelayInvNext(tools, relayPeer, relay, log);
        NoteRelay(log);
      }
      var content := if log.how.Skipped? then log.payload else world.fence(log.call.name, log.payload, !log.ok);
      RecountsNext(world, opening, messages, tools, Tool(log.call.id, log.call.name, JStr(content)), Snoc(tools, log));
      messages := messages + [Tool(log.call.id, log.call.name, JStr(content))];
      tools := Snoc(tools, log);
      Emit(ToolEnd(log.call.id, log));
    }

    /** Whether the engine lets a decoded call reach its tool. */
    predicate RunsHere(name: string, peerId: string)
      reads this
    {
      if relayPeer != "" && relay.declined != "" then false
      else if relayPeer != "" && name == "decline" then !relay.forwarded
      else if name == "decline" then false
      else if relayPeer != "" then name == "peer" && Strip(peerId) == relayPeer
      else true
    }

    /** A call skipped because the user interrupted still gets its reply and its log. */
    method SkipCall(call: ToolCalls.Entry) returns (ghost log: ToolLog)
      requires Busy() && Answered() && interrupt
      modifies this`events, this`messages, this`tools, this`relay
      ensures Busy() && Answered()
      ensures Filed(old(tools), old(messages), log) && log.call == call && log.how.Skipped? && !log.ok
    {
      var l := ToolLog(call, world.decode(call).peerId, Skipped, false, "", SKIPPED);
      HonestNext(world, relayPeer, tools, l);
      Record(l);
      log := l;
    }

    /**
     * The outcome held for the `i`th call of a batch that began at call number `first`: that of the last of
     * the first `n` calls with its id.
     */
    predicate Fetched(calls: seq<ToolCalls.Entry>, i: nat, n: nat, first: nat, outcomes: map<string, Outcome>)
      requires i < n <= |calls|
    {
      && calls[i].id in outcomes
      && var o := outcomes[calls[i].id];
         && first + i <= o.number < first + n
         && o.call == calls[o.number - first] && o.call.id == calls[i].id
         && (forall k :: o.number - first < k < n ==> calls[k].id != calls[i].id)
         && o.result == world.run(o.number, o.call)
         && world.decode(calls[i]).valid && ParallelSafe(calls[i].name)
    }

    /** An outcome for every call of the batch. */
    predicate FetchedAll(calls: seq<ToolCalls.Entry>, first: nat, outcomes: map<string, Outcome>) {
      FetchedTo(calls, |calls|, first, outcomes)
    }

    predicate FetchedTo(calls: seq<ToolCalls.Entry>, n: nat, first: nat, outcomes: map<string, Outcome>)
      requires n <= |calls|
    {
      forall i :: 0 <= i < n ==> Fetched(calls, i, n, first, outcomes)
    }

    /** A batch of parallel-safe calls runs at once, unless the user interrupts first. */
    method RunParallel(calls: seq<ToolCalls.Entry>) returns (outcomes: map<string, Outcome>)
      requires Busy()
      modifies this`events, this`interrupt
      ensures Busy() && (old(interrupt) ==> interrupt)
      ensures outcomes != map[] ==> relayPeer == "" && |calls| > 1 && FetchedAll(calls, Size(tools), outcomes)
    {
      outcomes := map[];
      Poll();
      var executor := Chance();
      if relayPeer != "" || interrupt || |calls| <= 1 || !executor
         || (exists i :: 0 <= i < |calls| && !(world.decode(calls[i]).valid && ParallelSafe(calls[i].name))) {
        return;
      }
      for i := 0 to |calls|
        invariant StreamOpen(events, tools, failed) && (old(interrupt) ==> interrupt)
      {
        Emit(ToolStart(calls[i].id, calls[i].name));
      }
      Poll();
      if !interrupt {
        outcomes := RunAll(calls, Size(tools));
      }
    }

    /** `execute_parallel`, keyed by call id: of two calls with one id the later result stays. */
    method RunAll(calls: seq<ToolCalls.Entry>, first: nat) returns (outcomes: map<string, Outcome>)
      requires forall i :: 0 <= i < |calls| ==> world.decode(calls[i]).valid && ParallelSafe(calls[i].name)
      ensures FetchedAll(calls, first, outcomes)
    {
      outcomes := map[];
      for i := 0 to |calls|
        invariant FetchedTo(calls, i, first, outcomes)
      {
        FetchedNext(calls, i, first, outcomes);
        outcomes := outcomes[calls[i].id := Outcome(first + i, calls[i], world.run(first + i, calls[i]))];
      }
    }

    lemma FetchedOne(calls: seq<ToolCalls.Entry>, j: nat, i: nat, first: nat, outcomes: map<string, Outcome>)
      requires j <= i < |calls| && world.decode(calls[i]).valid && ParallelSafe(calls[i].name) && FetchedTo(calls, i, first, outcomes)
      ensures Fetched(calls, j, i + 1, first,
                      outcomes[calls[i].id := Outcome(first + i, calls[i], world.run(first + i, calls[i]))])
    {
      assert j < i ==> Fetched(calls, j, i, first, outcomes);
    }

    /** One more call run in parallel. */
    lemma FetchedNext(calls: seq<ToolCalls.Entry>, i: nat, first: nat, outcomes: map<string, Outcome>)
      requires i < |calls| && world.decode(calls[i]).valid && ParallelSafe(calls[i].name) && FetchedTo(calls, i, first, outcomes)
      ensures FetchedTo(calls, i + 1, first,
                        outcomes[calls[i].id := Outcome(first + i, calls[i], world.run(first + i, calls[i]))])
    {
      var o := Outcome(first + i, calls[i], world.run(first + i, calls[i]));
      var next, n := outcomes[calls[i].id := o], i + 1;
      forall j | 0 <= j < n ensures Fetched(calls, j, n, first, next) {
        FetchedOne(calls, j, i, first, outcomes);
      }
    }

    /** The log says what the outcome says. */
    predicate Carries(log: ToolLog, o: Outcome) {
      log.how == Ran(o.number, o.call) && log.ok == o.result.ok && log.output == o.result.output
    }

    /** The log of a call that is number `n` of the turn: the outcome held for it, or what came of it in its turn. */
    predicate LogFor(call: ToolCalls.Entry, log: ToolLog, outcomes: map<string, Outcome>, n: nat) {
      && log.call == call
      && if call.id in outcomes then Carries(log, outcomes[call.id])
         else log.how == Ran(n, call) || log.how.Refused? || log.how.Skipped?
    }

    predicate LogsFor(calls: seq<ToolCalls.Entry>, logs: seq<ToolLog>, outcomes: map<string, Outcome>, first: nat) {
      |logs| <= |calls| && forall i :: 0 <= i < |logs| ==> LogFor(calls[i], logs[i], outcomes, first + i)
    }

    /** The next call of the batch, skipped once the user has interrupted. */
    method AnswerNext(calls: seq<ToolCalls.Entry>, i: nat, ghost first: nat, outcomes: map<string, Outcome>)
      returns (ghost log: ToolLog)
      requires Busy() && Answered() && i < |calls| && Size(tools) == first + i
      requires outcomes != map[] ==> relayPeer == "" && FetchedAll(calls, first, outcomes)
      modifies this`events, this`interrupt, this`messages, this`tools, this`relay, this`failures, this`produced, this`delivered
      ensures Busy() && Answered()
      ensures Filed(old(tools), old(messages), log) && LogFor(calls[i], log, outcomes, first + i)
      ensures delivered == (old(delivered) || (dispatch && Delivers(world, log)))
    {
      Poll();
      if interrupt && outcomes == map[] {
        log := SkipCall(calls[i]);
      } else {
        assert outcomes != map[] ==> Fetched(calls, i, |calls|, first, outcomes);
        log := AnswerCall(calls[i], if calls[i].id in outcomes then Some(outcomes[calls[i].id]) else None);
      }
    }

    /** So far the batch has the logs `logs`, each with its reply, behind those of `before` and `start`. */
    ghost predicate Batch(start: seq<Message>, before: List<ToolLog>, calls: seq<ToolCalls.Entry>,
                          outcomes: map<string, Outcome>, logs: seq<ToolLog>)
      reads this
    {
      && tools == Extend(before, logs) && messages == start + AllReplies(world, logs)
      && LogsFor(calls, logs, outcomes, Size(before))
    }

    /** One more call answered. */
    lemma BatchNext(start: seq<Message>, before: List<ToolLog>, calls: seq<ToolCalls.Entry>, outcomes: map<string, Outcome>,
                    logs: seq<ToolLog>, log: ToolLog, had: List<ToolLog>, told: seq<Message>)
      requires |logs| < |calls| && LogFor(calls[|logs|], log, outcomes, Size(before) + |logs|) && Filed(had, told, log)
      requires had == Extend(before, logs) && told == start + AllReplies(world, logs)
      requires LogsFor(calls, logs, outcomes, Size(before))
      ensures Batch(start, before, calls, outcomes, logs + [log])
    {
      ExtendNext(before, logs, log);
      assert (start + AllReplies(world, logs)) + [ReplyTo(world, log)] == start + AllReplies(world, logs + [log]);
    }

    /**
     * Answers the whole batch, in call order, one reply each: the log of each call is what its own tool
     * gave, and the reply says what the log says.
     */
    method AnswerBatch(ghost base: seq<Message>, calls: seq<ToolCalls.Entry>, outcomes: map<string, Outcome>)
      returns (ghost logs: seq<ToolLog>)
      requires Busy() && Answered()
      requires outcomes != map[] ==> relayPeer == "" && FetchedAll(calls, Size(tools), outcomes)
      requires |messages| > 0 && messages[..|messages| - 1] == base && messages[|messages| - 1].Assistant?
      requires messages[|messages| - 1].calls == Wire(world, calls)
      requires paired ==> WellPaired(base)
      modifies this`events, this`interrupt, this`messages, this`tools, this`relay, this`failures, this`produced, this`delivered
      ensures Busy() && HistoryOk()
      ensures |logs| == |calls| && tools == Extend(old(tools), logs)
      ensures LogsFor(calls, logs, outcomes, Size(old(tools)))
      ensures BatchSpelled(old(messages), calls, logs)
      ensures delivered == (old(delivered) || (dispatch && AnyDelivers(world, logs)))
    {
      ghost var start, before := messages, tools;
      logs := AnswerAll(calls, outcomes);
      BatchEnds(base, start, before, calls, outcomes, logs);
    }

    /** A batch answered to its end: the replies spelled out, and the history paired. */
    lemma BatchEnds(base: seq<Message>, start: seq<Message>, before: List<ToolLog>, calls: seq<ToolCalls.Entry>,
                    outcomes: map<string, Outcome>, logs: seq<ToolLog>)
      requires |start| > 0 && start[..|start| - 1] == base && start[|start| - 1].Assistant?
      requires start[|start| - 1].calls == Wire(world, calls) && (paired ==> WellPaired(base))
      requires Batch(start, before, calls, outcomes, logs) && |logs| == |calls|
      ensures BatchSpelled(start, calls, logs) && (paired ==> WellPaired(messages))
    {
      BatchTold(start, before, calls, outcomes, logs);
      if paired {
        BatchPaired(base, start, before, calls, outcomes, logs);
      }
    }

    /** Behind `start` stand one reply per call, in call order, saying what the logs say. */
    ghost predicate BatchSpelled(start: seq<Message>, calls: seq<ToolCalls.Entry>, logs: seq<ToolLog>)
      requires |logs| == |calls|
      reads this
    {
      && |messages| == |start| + |calls| && start <= messages
      && forall i :: 0 <= i < |calls| ==>
           messages[|start| + i]
           == Tool(calls[i].id, calls[i].name,
                   JStr(if logs[i].how.Skipped? then logs[i].payload
                        else world.fence(calls[i].name, logs[i].payload, !logs[i].ok)))
    }

    /** The replies to a batch, spelled out. */
    lemma BatchTold(start: seq<Message>, before: List<ToolLog>, calls: seq<ToolCalls.Entry>,
                    outcomes: map<string, Outcome>, logs: seq<ToolLog>)
      requires Batch(start, before, calls, outcomes, logs) && |logs| == |calls|
      ensures BatchSpelled(start, calls, logs)
    {
      ReplyAt(world, logs);
      forall i | 0 <= i < |calls| ensures messages[|start| + i] == ReplyTo(world, logs[i]) && logs[i].call == calls[i] {
        assert LogFor(calls[i], logs[i], outcomes, Size(before) + i);
      }
    }

    /** The loop over the calls of a batch. */
    method AnswerAll(calls: seq<ToolCalls.Entry>, outcomes: map<string, Outcome>) returns (ghost logs: seq<ToolLog>)
      requires Busy() && Answered()
      requires outcomes != map[] ==> relayPeer == "" && FetchedAll(calls, Size(tools), outcomes)
      modifies this`events, this`interrupt, this`messages, this`tools, this`relay, this`failures, this`produced, this`delivered
      ensures Busy() && Answered()
      ensures |logs| == |calls| && Batch(old(messages), old(tools), calls, outcomes, logs)
      ensures delivered == (old(delivered) || (dispatch && AnyDelivers(world, logs)))
    {
      logs := [];
      for i := 0 to |calls|
        invariant Busy() && Answered() && |logs| == i && Batch(old(messages), old(tools), calls, outcomes, logs)
        invariant delivered == (old(delivered) || (dispatch && AnyDelivers(world, logs)))
      {
        ghost var log := AnswerMore(old(messages), old(tools), calls, outcomes, i, logs);
        ExtendNext(old(tools), logs, log);
        logs := logs + [log];
      }
    }

    /** One pass of the loop. */
    method AnswerMore(ghost start: seq<Message>, ghost before: List<ToolLog>, calls: seq<ToolCalls.Entry>,
                      outcomes: map<string, Outcome>, i: nat, ghost had: seq<ToolLog>) returns (ghost log: ToolLog)
      requires Busy() && Answered() && Batch(start, before, calls, outcomes, had) && |had| == i < |calls|
      requires outcomes != map[] ==> relayPeer == "" && FetchedAll(calls, Size(before), outcomes)
      modifies this`events, this`interrupt, this`messages, this`tools, this`relay, this`failures, this`produced, this`delivered
      ensures Busy() && Answered() && Batch(start, before, calls, outcomes, had + [log])
      ensures delivered == (old(delivered) || (dispatch && Delivers(world, log)))
    {
      ExtendSize(before, had);
      log := AnswerNext(calls, i, Size(before), outcomes);
      BatchNext(start, before, calls, outcomes, had, log, old(tools), old(messages));
    }

    /** A batch answered to its end keeps the history paired. */
    lemma BatchPaired(base: seq<Message>, start: seq<Message>, before: List<ToolLog>, calls: seq<ToolCalls.Entry>,
                      outcomes: map<string, Outcome>, logs: seq<ToolLog>)
      requires |start| > 0 && start[..|start| - 1] == base && start[|start| - 1].Assistant?
      requires start[|start| - 1].calls == Wire(world, calls) && WellPaired(base)
      requires Batch(start, before, calls, outcomes, logs) && |logs| == |calls|
      ensures WellPaired(messages)
    {
      ReplyAt(world, logs);
      assert forall i :: 0 <= i < |calls| ==> LogFor(calls[i], logs[i], outcomes, Size(before) + i);
      PairedGroup(base, start[|start| - 1], AllReplies(world, logs));
      assert base + [start[|start| - 1]] == start;
    }

    /** What the model said along with its calls is shown, and the calls that may run at once do. */
    method OpenBatch(content: string, calls: seq<ToolCalls.Entry>) returns (outcomes: map<string, Outcome>)
      requires Busy()
      modifies this`events, this`interrupt, this`delivered
      ensures Busy() && !delivered
      ensures outcomes != map[] ==> relayPeer == "" && FetchedAll(calls, Size(tools), outcomes)
    {
      if content != "" {
        Emit(AssistantDone(content, false));
      }
      delivered := false;
      outcomes := RunParallel(calls);
    }

    /** A reply with tool calls: every one is answered before anything else happens. */
    method RunBatch(ghost base: seq<Message>, content: string, calls: seq<ToolCalls.Entry>) returns (ghost logs: seq<ToolLog>)
      requires Busy() && Answered() && (paired ==> WellPaired(base))
      requires messages == base + [Assistant(JStr(content), Wire(world, calls))]
      modifies this`events, this`interrupt, this`messages, this`tools, this`relay, this`failures, this`produced, this`delivered
      ensures Busy() && HistoryOk()
      ensures |logs| == |calls| && tools == Extend(old(tools), logs)
      ensures forall i :: 0 <= i < |calls| ==> logs[i].call == calls[i]
      ensures delivered == (dispatch && AnyDelivers(world, logs))
    {
      var outcomes := OpenBatch(content, calls);
      logs := AnswerBatch(base, calls, outcomes);
      var mutated := Chance();
      if mutated {
        Append(System(JStr("[mutations]")));
      }
    }

    /** The request was declined: the reason is the reply, or a workgroup turn fails. */
    method AcceptDecline()
      requires Busy() && relay.declined != "" && NoneSkipped(tools)
      modifies this`events, this`failed, this`completed, this`finalAssistant
      ensures Over()
      ensures events == if dispatch then Snoc(old(events), Error)
                        else Snoc(Snoc(old(events), AssistantDone(relay.declined, true)), Done)
    {
      if dispatch {
        Fail();
        FailedIsOver();
      } else {
        RelayMeaning(tools, relayPeer, relay);
        Reply(relay.declined, true);
      }
    }

    /** The peer's own words are the reply. */
    method PassOn(reply: string)
      requires Open() && !dispatch && (relayPeer != "" ==> relay.consulted)
      requires reply != "" && reply == LastPeerReply(tools)
      modifies this`events, this`failed, this`completed, this`finalAssistant
      ensures Over() && completed && events == Snoc(Snoc(old(events), AssistantDone(reply, true)), Done)
    {
      if relayPeer != "" {
        RelayMeaning(tools, relayPeer, relay);
      }
      LastPeerReplyIsSaid(tools);
      Reply(reply, true);
    }

    /**
     * After a batch: interrupted, declined, delivered, answered by the peer, or on to the next step. Each of
     * the first four ends the turn, in that order.
     */
    method Settle() returns (flow: Flow)
      requires Busy()
      modifies this`events, this`interrupt, this`interrupted, this`failed, this`completed, this`finalAssistant, this`escalated
      ensures flow == Return ==> Over()
      ensures flow != Return ==> flow == Continue && Open()
      ensures old(interrupt) ==> interrupted
      ensures interrupted ==> flow == Return && events == Snoc(old(events), Interrupted)
      ensures !interrupted ==>
                if relay.declined != "" then
                  && flow == Return
                  && events == if dispatch then Snoc(old(events), Error)
                               else Snoc(Snoc(old(events), AssistantDone(relay.declined, true)), Done)
                else if delivered then flow == Return && completed && events == Snoc(old(events), Done)
                else if LastPeerReply(tools) != "" && !dispatch && (relayPeer == "" || relay.consulted) then
                  && flow == Return && completed
                  && events == Snoc(Snoc(old(events), AssistantDone(LastPeerReply(tools), true)), Done)
                else
                  && flow == Continue
                  && (events != old(events) ==> failures >= 3 && !old(escalated) && events == Snoc(old(events), Routing))
    {
      Poll();
      if interrupt {
        FinalizeInterrupt();
        return Return;
      }
      if relay.declined != "" {
        AcceptDecline();
        return Return;
      }
      if delivered {
        Finish();
        return Return;
      }
      var reply := LastPeerReply(tools);
      if reply != "" && !dispatch && (relayPeer == "" || relay.consulted) {
        PassOn(reply);
        return Return;
      }
      var stronger := Chance();
      if failures >= 3 && stronger {
        Escalate();
      }
      return Continue;
    }

    // ---------- the step loop ----------

    /** What the loop does before it calls the model. */
    method Preamble() returns (flow: Flow)
      requires Open() && HistoryOk() && !deadlineHit
      modifies this`events, this`interrupt, this`interrupted, this`deadlineHit, this`messages, this`failed
      ensures HistoryOk()
      ensures flow == Return ==> Over() && interrupted
      ensures flow != Return ==> Open()
      ensures flow == Continue ==> !deadlineHit && failed == old(failed)
      ensures flow == Break ==> deadlineHit || failed
    {
      flow := BeforeCall();
      if flow != Continue {
        return;
      }
      var timeNote := Chance();
      if timeNote {
        Nudge();
      }
      var overBudget := Chance();
      if overBudget {
        Fail();
        flow := Break;
      }
    }

    /** A reply without calls keeps the history paired, and is what the model said last. */
    lemma StoredWhole(base: seq<Message>, text: string, calls: seq<ToolCalls.Entry>)
      requires Spoke(base, text, calls) && calls == [] && (paired ==> WellPaired(base)) && Answered()
      requires messages == base + [Assistant(JStr(world.clean(text)), Wire(world, calls))]
      ensures HistoryOk() && Said(world, sent, messages, world.clean(text))
    {
      if paired {
        PairedNext(base, messages[|messages| - 1]);
      }
      assert Wire(world, calls) == [];
      SaysIt(world, sent, base, messages, text, calls, false);
    }

    /** What the model's reply leads to. */
    method React(ghost base: seq<Message>, text: string, calls: seq<ToolCalls.Entry>) returns (flow: Flow)
      requires Open() && Answered() && (paired ==> WellPaired(base)) && Spoke(base, text, calls)
      requires messages == base + [Assistant(JStr(world.clean(text)), Wire(world, calls))]
      modifies this`events, this`interrupt, this`interrupted, this`messages, this`tools, this`relay, this`failures,
               this`produced, this`delivered, this`finalAssistant, this`completed, this`failed, this`relayRetried,
               this`emptyRetried, this`escalated, this`handoff
      ensures HistoryOk()
      ensures flow == Return ==> Over()
      ensures flow != Return ==> Open()
    {
      if calls == [] {
        StoredWhole(base, text, calls);
        ghost var todos;
        flow, todos := NoCalls(world.clean(text));
      } else {
        ghost var logs := RunBatch(base, world.clean(text), calls);
        flow := Settle();
      }
    }

    /** One step of the loop. It costs at most one model call, plus one per fallback model used up. */
    method Step() returns (flow: Flow)
      requires Open() && HistoryOk() && !deadlineHit
      modifies this
      ensures HistoryOk()
      ensures flow == Return ==> Over()
      ensures flow != Return ==> Open()
      ensures flow == Continue ==> !deadlineHit
      ensures Size(sent) + |fallbackQueue| <= Size(old(sent)) + |old(fallbackQueue)| + 1
      ensures paired == old(paired) && turns == old(turns) && opening == old(opening)
    {
      flow := Preamble();
      if flow == Continue {
        flow := Converse();
      }
    }

    /** The model call of a step and what its reply leads to. */
    method Converse() returns (flow: Flow)
      requires Open() && HistoryOk() && !deadlineHit
      modifies this`events, this`interrupt, this`interrupted, this`deadlineHit, this`sent, this`fallbackQueue,
               this`model, this`messages, this`tools, this`relay, this`failures, this`produced, this`delivered,
               this`finalAssistant, this`completed, this`failed, this`relayRetried, this`emptyRetried,
               this`escalated, this`handoff
      ensures HistoryOk()
      ensures flow == Return ==> Over()
      ensures flow != Return ==> Open()
      ensures flow == Continue ==> !deadlineHit
      ensures Size(sent) + |fallbackQueue| <= Size(old(sent)) + |old(fallbackQueue)| + 1
    {
      ghost var base := messages;
      var text, calls;
      flow, text, calls := Ask();
      if flow != Continue {
        return;
      }
      flow := React(base, text, calls);
    }

    // ---------- workgroup handoff ----------

    /** A post of the engine's own, with the text `text`, closes the log; it went through if `ok`. */
    ghost predicate PostedLast(text: string, ok: bool)
      reads this
    {
      tools.Snoc? && tools.last.how.Posted? && tools.last.call.arguments == text && tools.last.ok == ok
    }

    /** `_post_workgroup_handoff`: runs the tool outside any batch and logs it like any other. */
    method PostHandoff(id: string, text: string) returns (posted: Posted)
      requires Open() && dispatch && Answered()
      modifies this`events, this`tools
      ensures Open() && Answered()
      ensures posted == PostRaised ==> tools == old(tools)
      ensures posted != PostRaised ==> PostedLast(text, posted == PostOk) && tools.front == old(tools)
    {
      Emit(ToolStart(id, "workgroup_post"));
      var raised := Chance();
      if raised {
        return PostRaised;
      }
      var call := ToolCalls.Entry(id, "workgroup_post", text);
      var r := world.run(Size(tools), call);
      var log := ToolLog(call, "", Posted, r.ok, r.output, Payload(world, "workgroup_post", r));
      HonestNext(world, relayPeer, tools, log);
      RecountsPost(world, opening, messages, tools, log);
      if relayPeer != "" {
        RelayInvNext(tools, relayPeer, relay, log);
      }
      tools := Snoc(tools, log);
      Emit(ToolEnd(id, log));
      posted := if r.ok then PostOk else PostRefused;
    }

    /** `_continue_after_refused_handoff`: a member turn posts a continuation instead. */
    method PostContinuation(text: string) returns (posted: Posted)
      requires Open() && dispatch && Answered()
      modifies this`events, this`tools, this`interrupt
      ensures Open() && Answered()
      ensures posted == PostOk ==> memberTurn && PostedLast(WithMark(text), true)
    {
      if !memberTurn {
        return PostRefused;
      }
      Poll();
      if interrupt {
        return PostRefused;
      }
      posted := PostHandoff("workgroup-direct-handoff-continuation", WithMark(text));
    }

    /** Ends the turn as a handoff went: posted, refused, or escaping. */
    method AfterPost(posted: Posted) returns (exit: Exit)
      requires Open()
      modifies this`events, this`completed, this`failed
      ensures exit == Escaped <==> posted == PostRaised
      ensures exit == Normal ==>
                Over() && events == Snoc(old(events), if posted == PostOk then Done else Error)
                && completed == (posted == PostOk)
    {
      match posted
      case PostRaised =>
        exit := Escaped;
      case PostOk =>
        Finish();
        exit := Normal;
      case PostRefused =>
        Fail();
        FailedIsOver();
        exit := Normal;
    }

    /**
     * The model's closing text becomes the workgroup post. The turn completes only with a post that went
     * through: that text, or in a member turn a continuation.
     */
    method HandOff() returns (exit: Exit)
      requires Open() && dispatch && Answered()
      modifies this`events, this`tools, this`interrupt, this`completed, this`failed
      ensures Answered()
      ensures exit == Normal ==> Over()
      ensures exit == Normal && completed ==>
                && Dones(events) == 1 && tools.Snoc?
                && (PostedLast(handoff, true) || (memberTurn && PostedLast(WithMark(tools.last.call.arguments), true)))
    {
      var workingOnly := Chance();
      var posted := PostRefused;
      var text := Rstrip(handoff);
      if !workingOnly {
        posted := PostHandoff("workgroup-direct-handoff", handoff);
        if posted == PostRaised {
          Fail();
          FailedIsOver();
          return Normal;
        }
        text := Wording();
      }
      if posted == PostRefused {
        posted := PostContinuation(text);
        MarkTwice(text);
      }
      exit := AfterPost(posted);
    }

    // ---------- wrap-up ----------

    /** The wrap-up call's chunk loop: no deadline check, and reasoning is not shown. */
    method ConsumeWrap(r: Streaming.Result, call: nat) returns (text: string, raised: bool)
      requires StreamOpen(events, tools, failed)
      modifies this`events, this`interrupt
      ensures StreamOpen(events, tools, failed) && (old(interrupt) ==> interrupt)
      ensures !raised && !interrupt ==> r.end == Streaming.Finished && text == Streaming.Kept(r.outputs)
    {
      text, raised := "", false;
      var outs := r.outputs;
      for i := 0 to |outs|
        invariant StreamOpen(events, tools, failed) && (old(interrupt) ==> interrupt)
        invariant text == Streaming.Kept(outs[..i])
      {
        Poll();
        if interrupt {
          return;
        }
        assert outs[..i + 1][..i] == outs[..i];
        match outs[i]
        case RetryReset => text := "";
        case Final(_, _) =>
        case Norm(attempt, chunk) =>
          text := text + chunk.text;
          if chunk.text != "" {
            Emit(Delta(chunk.text, call, attempt));
          }
      }
      assert outs[..|outs|] == outs;
      raised := r.end != Streaming.Finished;
    }

    /** Hands the history to the model once more, with the instruction to wrap up. */
    method OpenWrap() returns (r: Streaming.Result, call: nat)
      requires Open() && HistoryOk()
      modifies this`sent
      ensures Open() && Size(sent) == Size(old(sent)) + 1
      ensures r.end == Streaming.Finished ==>
                r.outputs != [] && r.outputs[|r.outputs| - 1].Final?
                && Spoke(messages + [User(JStr("[wrap up]"))], Streaming.Kept(r.outputs), r.outputs[|r.outputs| - 1].calls)
    {
      var asked := messages + [User(JStr("[wrap up]"))];
      if paired {
        PairedNext(messages, User(JStr("[wrap up]")));
      }
      r, call := OpenStream(asked);
      if r.end == Streaming.Finished {
        SpokeLast(r, call, asked);
      }
    }

    /** A stream that finished was spoken by the attempt it ended with. */
    lemma SpokeLast(r: Streaming.Result, call: nat, asked: seq<Message>)
      requires sent.Snoc? && sent.last == Sent(asked, r.requests) && call == Size(sent) - 1
      requires Finishes(r, call) && r.requests == Streaming.Resets(r.outputs) + 1
      ensures Spoke(asked, Streaming.Kept(r.outputs), r.outputs[|r.outputs| - 1].calls)
    {
      forall n: nat, a: nat | LastRequest(sent, n, a)
        ensures Streaming.MadeBy(world.providers(n), a, Streaming.Kept(r.outputs), r.outputs[|r.outputs| - 1].calls)
      {
        assert n == call && a == Streaming.Resets(r.outputs);
      }
    }

    /** The wrap-up call: its text is that of the one request it ended with, unless the user interrupts. */
    method AskWrap() returns (text: string, ghost calls: seq<ToolCalls.Entry>, raised: bool)
      requires Open() && HistoryOk()
      modifies this`events, this`interrupt, this`sent
      ensures Open() && Size(sent) == Size(old(sent)) + 1
      ensures !raised && !interrupt ==> Spoke(messages + [User(JStr("[wrap up]"))], text, calls)
    {
      var r, call := OpenWrap();
      calls := if r.end == Streaming.Finished then r.outputs[|r.outputs| - 1].calls else [];
      text, raised := ConsumeWrap(r, call);
    }

    /**
     * Out of steps, time or handoff: one last call without tools (or with the handoff tool only).
     * `over` says whether it ended the turn.
     */
    method WrapUp() returns (over: bool, exit: Exit)
      requires Open() && HistoryOk()
      modifies this`events, this`tools, this`interrupt, this`interrupted, this`completed, this`failed, this`messages,
               this`finalAssistant, this`sent
      requires relayPeer != "" ==> relay.consulted
      ensures HistoryOk()
      ensures exit == Normal ==> if over then Over() else Open()
      ensures exit == Normal && !over ==> !dispatch
      ensures SentOk() && Size(sent) <= Size(old(sent)) + 1
    {
      over, exit := true, Normal;
      var available := Chance();
      if dispatch && !available {
        Fail();
        FailedIsOver();
        return;
      }
      var text, raised;
      ghost var calls;
      text, calls, raised := AskWrap();
      if raised {
        exit := WrapFailed();
        return;
      }
      over, exit := CloseWrap(text, calls);
    }

    /** The wrap-up call raised: a workgroup turn still posts a continuation. */
    method WrapFailed() returns (exit: Exit)
      requires Open() && Answered()
      modifies this`events, this`tools, this`completed, this`failed
      ensures Answered()
      ensures exit == Normal ==> Over()
      ensures exit == Normal && completed ==>
                dispatch && tools.Snoc? && PostedLast(WithMark(tools.last.call.arguments), true)
    {
      if dispatch {
        var text := Wording();
        var posted := PostHandoff("workgroup-final-handoff", WithMark(text));
        MarkTwice(text);
        if posted != PostRefused {
          exit := AfterPost(posted);
          return;
        }
      }
      Fail();
      FailedIsOver();
      exit := Normal;
    }

    /** The wrap-up call came back: what it said is the reply, or a workgroup turn posts a continuation. */
    method CloseWrap(text: string, ghost calls: seq<ToolCalls.Entry>) returns (over: bool, exit: Exit)
      requires Open() && HistoryOk() && (relayPeer != "" ==> relay.consulted)
      requires !interrupt ==> Spoke(messages + [User(JStr("[wrap up]"))], text, calls)
      modifies this`events, this`tools, this`interrupt, this`interrupted, this`completed, this`failed, this`messages,
               this`finalAssistant
      ensures HistoryOk()
      ensures exit == Normal ==> if over then Over() else Open()
      ensures exit == Normal && !dispatch && !interrupted ==>
                if world.clean(text) == "" then !over
                else over && events.Snoc? && events.front == Snoc(Snoc(old(events), Usage), AssistantDone(world.clean(text), true))
      ensures exit == Normal && dispatch ==> over
    {
      over, exit := true, Normal;
      Poll();
      if interrupt {
        FinalizeInterrupt();
        return;
      }
      Emit(Usage);
      if dispatch {
        exit := PostWrap();
        return;
      }
      if world.clean(text) == "" {
        over := false;
        return;
      }
      ReplyWrap(text, calls);
    }

    /** A workgroup turn that has wrapped up posts a continuation. */
    method PostWrap() returns (exit: Exit)
      requires Open() && Answered() && dispatch
      modifies this`events, this`tools, this`completed, this`failed
      ensures Answered()
      ensures exit == Normal ==> Over()
    {
      var text := Wording();
      var posted := PostHandoff("workgroup-final-handoff", WithMark(text));
      if posted == PostRaised {
        exit := WrapFailed();
      } else {
        exit := AfterPost(posted);
      }
    }

    /** The wrap-up's text is stored and given as the reply. */
    method ReplyWrap(text: string, ghost calls: seq<ToolCalls.Entry>)
      requires Open() && HistoryOk() && !dispatch && (relayPeer != "" ==> relay.consulted)
      requires Spoke(messages + [User(JStr("[wrap up]"))], text, calls)
      modifies this`events, this`completed, this`failed, this`messages, this`finalAssistant
      ensures HistoryOk() && Over()
      ensures events == Snoc(Snoc(old(events), AssistantDone(world.clean(text), true)), Done)
    {
      ghost var base := messages;
      Append(Assistant(JStr(world.clean(text)), []));
      SaysIt(world, sent, base, messages, text, calls, true);
      if relayPeer != "" {
        RelayMeaning(tools, relayPeer, relay);
      }
      Reply(world.clean(text), true);
    }

    /** Everything after the step loop was left without ending the turn. */
    method AfterLoop() returns (exit: Exit)
      requires Open() && HistoryOk()
      modifies this`events, this`tools, this`interrupt, this`interrupted, this`completed, this`failed, this`messages,
               this`finalAssistant, this`sent
      ensures HistoryOk()
      ensures exit == Normal ==> Over()
      ensures SentOk() && Size(sent) <= Size(old(sent)) + 1
      // no further call once the turn has failed, hands off, or never reached its peer
      ensures old(failed) || (dispatch && handoff != "") ==> sent == old(sent)
      ensures relayPeer != "" && !relay.consulted ==> sent == old(sent)
    {
      Poll();
      if relayPeer != "" && !relay.consulted && !interrupt {
        RelayGiveUp();
        return Normal;
      }
      if dispatch && handoff != "" {
        exit := HandOff();
        return;
      }
      if !failed {
        Poll();
        if !interrupt {
          var over;
          over, exit := WrapUp();
          if over || exit == Escaped {
            return;
          }
        }
      }
      if !failed {
        Fail();
      }
      FailedIsOver();
      exit := Normal;
    }

    // ---------- the whole turn ----------

    /** `_maybe_auto_compact` */
    method AutoCompactHistory()
      requires Open()
      modifies this`messages, this`events
      ensures Open()
      ensures messages == AutoCompacted(old(messages), window, summarize)
    {
      if !Compaction.ShouldCompact(messages, "", window, Compaction.DEFAULT_POLICY) {
        return;
      }
      var out := Compaction.Compact(messages, "", window, summarize, Compaction.DEFAULT_POLICY, false);
      if !out.fired && out.truncated == 0 {
        Compaction.NothingDone(messages, "", window, summarize, Compaction.DEFAULT_POLICY, false);
        return;
      }
      messages := out.messages;
      Emit(AutoCompact);
    }

    /** The step loop: it descends on steps left, each step on fallback models left. */
    method StepLoop() returns (flow: Flow)
      requires Open() && HistoryOk() && !deadlineHit && sent == Nil && fallbackQueue == fallbacks
      modifies this
      ensures HistoryOk()
      ensures if flow == Return then Over() else Open()
      ensures Size(sent) <= Max(0, maxSteps) + |fallbacks|
      ensures paired == old(paired) && turns == old(turns) && opening == old(opening)
    {
      flow := Continue;
      var step := 0;
      while step < maxSteps && flow == Continue
        invariant 0 <= step <= Max(0, maxSteps)
        invariant HistoryOk() && (if flow == Return then Over() else Open())
        invariant flow == Continue ==> !deadlineHit
        invariant Size(sent) + |fallbackQueue| <= step + |fallbacks|
        invariant paired == old(paired) && turns == old(turns) && opening == old(opening)
        decreases maxSteps - step
      {
        flow := Step();
        step := step + 1;
      }
    }

    /** Budget, workgroup context and attachments, before anything is recorded. */
    method Preflight() returns (ok: bool, exit: Exit)
      requires Open() && events == Nil
      modifies this`events, this`failed
      ensures ok ==> events == Nil && failed == old(failed) && exit == Normal
      ensures !ok && exit == Normal ==> events == Snoc(Nil, Error)
    {
      ok, exit := true, Normal;
      var overBudget := Chance();
      var badContext := Chance();
      var badAttachment := Chance();
      if overBudget {
        ok := false;
        Emit(Error);
      } else if dispatch && badContext {
        ok, exit := false, Escaped;
      } else if badAttachment {
        ok := false;
        Emit(Error);
      }
    }

    /**
     * One whole turn, on any input, against any provider, tools, clock and interrupts.
     * `started` says whether it got past preflight.
     */
    method RunTurn(userText: string) returns (exit: Exit, started: bool)
      requires Fresh()
      modifies this
      // a turn that returns has said how it ended, once, and replied at most once, just before `done`
      ensures exit == Normal ==> Ended(events) && Dones(events) <= 1 && Finals(events) <= 1
      ensures exit == Normal && Dones(events) == 1 ==> events.Snoc? && events.last == Done
      ensures exit == Normal && Finals(events) == 1 ==>
                Dones(events) == 1 && events.front.Snoc? && events.front.last == AssistantDone(finalAssistant, true)
      // the session gains exactly one turn when preflight passed, and none otherwise
      ensures started ==> turns == old(turns) + [TurnLog(finalAssistant, tools, interrupted)]
      ensures !started ==> turns == old(turns) && messages == old(messages) && sent == Nil
      ensures !started && exit == Normal ==> events == Snoc(Nil, Error)
      // every log was reported, in order
      ensures exit == Normal ==> Logs(events) == tools
      // calls and requests are bounded
      ensures Size(sent) <= Max(0, maxSteps) + |fallbacks| + 1
      ensures Requests(sent) <= Size(sent) * (Max(0, maxRetries) + 1)
      // tool pairing at every provider call and at the end
      ensures WellPaired(old(messages)) && !FiresUnsafely(old(messages) + [User(JStr(userText))], window, summarize) ==>
                PairedAll(sent) && WellPaired(messages)
      // relay mode
      ensures exit == Normal && relayPeer != "" ==>
                RelayOnly(tools, relayPeer) && !(Forwarded(tools, relayPeer) && Declined(tools))
      // a final reply is the model's last words or the peer's, and without one nothing is filed but what was cut off
      ensures exit == Normal ==>
                if Finals(events) == 1 then Justified(world, relayPeer, dispatch, tools, sent, messages, finalAssistant)
                else finalAssistant == "" || (interrupted && CutOff(Replay(), events, sent, messages, finalAssistant))
      // each log is what its own tool gave, or says why it was not asked; none is skipped but by an interrupt
      ensures exit == Normal ==> AllHonest(world, relayPeer, tools) && (interrupted || NoneSkipped(tools))
      // and the history has exactly the replies these logs stand for, in order
      ensures started ==>
                Recounts(world, AutoCompacted(old(messages) + [User(JStr(userText))], window, summarize), messages, tools)
    {
      FreshIsOpen();
      started, exit := Preflight();
      if started {
        exit := TurnBody(userText);
        assert Kept(finalAssistant, finalAssistant);
        TotalRequests(sent, maxRetries);
        if relayPeer != "" && exit == Normal {
          RelayMeaning(tools, relayPeer, relay);
        }
      }
    }

    /** The turn once past preflight; its log entry is filed however it ends. */
    method TurnBody(userText: string) returns (exit: Exit)
      requires Fresh() && Open()
      modifies this
      ensures exit == Normal ==> Over()
      ensures turns == old(turns) + [TurnLog(finalAssistant, tools, interrupted)]
      ensures Size(sent) <= Max(0, maxSteps) + |fallbacks| + 1 && RequestsBounded(sent, maxRetries)
      ensures WellPaired(old(messages)) && !FiresUnsafely(old(messages) + [User(JStr(userText))], window, summarize) ==>
                PairedAll(sent) && WellPaired(messages)
      ensures Answered() && opening == AutoCompacted(old(messages) + [User(JStr(userText))], window, summarize)
    {
      StartTurn(userText);
      exit := Loops();
      turns := turns[..|turns| - 1] + [TurnLog(finalAssistant, tools, interrupted)];
    }

    /** Records the user message and a stub turn, then compacts if due. */
    method StartTurn(userText: string)
      requires Fresh() && Open()
      modifies this`messages, this`events, this`turns, this`paired, this`opening
      ensures Open() && HistoryOk()
      ensures opening == AutoCompacted(old(messages) + [User(JStr(userText))], window, summarize)
      ensures turns == old(turns) + [TurnLog("", Nil, false)]
      ensures WellPaired(old(messages)) && !FiresUnsafely(old(messages) + [User(JStr(userText))], window, summarize) ==> paired
    {
      Append(User(JStr(userText)));
      Emit(UserEcho);
      turns := turns + [TurnLog("", Nil, false)];
      CompactHistory();
    }

    /** Notes the history the step loop starts from, and whether it is paired. */
    ghost method NoteOpening()
      requires Open() && sent == Nil && tools == Nil
      modifies this`paired, this`opening
      ensures Open() && HistoryOk() && opening == messages && paired == WellPaired(messages)
    {
      paired, opening := WellPaired(messages), messages;
      RecountsNothing(world, opening);
    }

    /** Compacts if due, and notes whether the history the step loop starts from is paired. */
    method CompactHistory()
      requires Open() && sent == Nil && tools == Nil
      modifies this`messages, this`events, this`paired, this`opening
      ensures Open() && HistoryOk() && opening == AutoCompacted(old(messages), window, summarize)
      ensures WellPaired(old(messages)) && !FiresUnsafely(old(messages), window, summarize) ==> paired
    {
      ghost var before := messages;
      AutoCompactHistory();
      NoteOpening();
      if WellPaired(before) {
        AutoCompactionPairing(before, window, summarize);
      }
    }

    /** The step loop and what comes after it. */
    method Loops() returns (exit: Exit)
      requires Open() && HistoryOk() && !deadlineHit && sent == Nil && fallbackQueue == fallbacks
      modifies this
      ensures exit == Normal ==> Over()
      ensures HistoryOk() && SentOk() && paired == old(paired) && turns == old(turns) && opening == old(opening)
      ensures Size(sent) <= Max(0, maxSteps) + |fallbacks| + 1
    {
      exit := Normal;
      var flow := StepLoop();
      if flow != Return {
        exit := AfterLoop();
      }
    }
  }

  // ---------- sessions ----------

  /** What a turn is given besides the history and the log. */
  datatype Setup = Setup(text: string, interrupt: bool, relayPeer: string, dispatch: bool, memberTurn: bool,
                         closureOnly: bool, unattended: bool, hasDeadline: bool, maxSteps: int, maxRetries: int,
                         fallbacks: seq<string>, model: string, window: int, summarize: Compaction.Summarizer,
                         world: World)

  /** A turn that was run: what it found, what it did and what it left. */
  datatype Past = Past(setup: Setup, before: seq<Message>, after: seq<Message>, exit: Exit, started: bool,
                       events: List<Event>, entry: TurnLog, sent: List<Sent>)

  /** What holds of a turn wherever it stands in a session. */
  ghost predicate Proper(p: Past) {
    var s, n := p.setup, Size(p.sent);
    && n <= Max(0, s.maxSteps) + |s.fallbacks| + 1 && Requests(p.sent) <= n * (Max(0, s.maxRetries) + 1)
    && (!p.started ==> p.after == p.before && p.sent == Nil)
    && (p.exit == Normal ==>
          && Ended(p.events) && Dones(p.events) <= 1 && Finals(p.events) <= 1 && Logs(p.events) == p.entry.tools
          && (s.relayPeer != "" ==> KeepsToRelay(p))
          && (Finals(p.events) == 1 ==>
                Justified(s.world, s.relayPeer, s.dispatch, p.entry.tools, p.sent, p.after, p.entry.assistant))
          && AllHonest(s.world, s.relayPeer, p.entry.tools) && (p.entry.interrupted || NoneSkipped(p.entry.tools)))
    && (p.started ==>
          Recounts(s.world, AutoCompacted(p.before + [User(JStr(s.text))], s.window, s.summarize), p.after, p.entry.tools))
  }

  /** Only the peer ran or one decline. */
  predicate KeepsToRelay(p: Past) {
    && RelayOnly(p.entry.tools, p.setup.relayPeer)
    && !(Forwarded(p.entry.tools, p.setup.relayPeer) && Declined(p.entry.tools))
  }

  ghost predicate AllProper(ps: List<Past>) {
    forall p :: Includes(ps, p) ==> Proper(p)
  }

  /** Each turn found the history the one before it left, the first `history`; the last left `messages`. */
  predicate Linked(ps: List<Past>, history: seq<Message>, messages: seq<Message>) {
    if ps.Nil? then messages == history
    else ps.last.after == messages && Linked(ps.front, history, ps.last.before)
  }

  function Setups(ps: List<Past>): seq<Setup> {
    if ps.Nil? then [] else Setups(ps.front) + [ps.last.setup]
  }

  /** The log entries filed. */
  function Filed(ps: List<Past>): seq<TurnLog> {
    if ps.Nil? then [] else Filed(ps.front) + if ps.last.started then [ps.last.entry] else []
  }

  predicate StartsSafely(p: Past) {
    !FiresUnsafely(p.before + [User(JStr(p.setup.text))], p.setup.window, p.setup.summarize)
  }

  predicate AllSafe(ps: List<Past>) {
    ps.Nil? || (AllSafe(ps.front) && StartsSafely(ps.last))
  }

  /** Up to the first turn that starts with an unsafe compaction every provider call was paired. */
  ghost predicate PairedWhileSafe(ps: List<Past>) {
    ps.Nil? || (PairedWhileSafe(ps.front) && (AllSafe(ps) ==> PairedAll(ps.last.sent) && WellPaired(ps.last.after)))
  }

  lemma ProperNext(ps: List<Past>, p: Past)
    requires AllProper(ps) && AllProper(Snoc(Nil, p))
    ensures AllProper(Snoc(ps, p))
  {
    forall q | Includes(Snoc(ps, p), q) ensures Proper(q) {
      assert Includes(Snoc(Nil, p), q) || Includes(ps, q);
    }
  }

  /** One turn on the history and the log the one before left. */
  method Advance(s: Setup, messages: seq<Message>, log: seq<TurnLog>) returns (p: Past, turns: seq<TurnLog>)
    ensures p.setup == s && p.before == messages && AllProper(Snoc(Nil, p))
    ensures turns == log + if p.started then [p.entry] else []
    ensures WellPaired(messages) && StartsSafely(p) ==> PairedAll(p.sent) && WellPaired(p.after)
  {
    var turn := new Turn(messages, log, s.interrupt, s.relayPeer, s.dispatch, s.memberTurn, s.closureOnly, s.unattended,
                         s.hasDeadline, s.maxSteps, s.maxRetries, s.fallbacks, s.model, s.window, s.summarize, s.world);
    var exit, started := turn.RunTurn(s.text);
    p := Past(s, messages, turn.messages, exit, started, turn.events,
              TurnLog(turn.finalAssistant, turn.tools, turn.interrupted), turn.sent);
    turns := turn.turns;
  }

  /** A session: one turn after another, each on the history and the log the one before left. */
  method Session(setups: seq<Setup>, history: seq<Message>, log: seq<TurnLog>)
    returns (messages: seq<Message>, turns: seq<TurnLog>, ps: List<Past>)
    ensures Setups(ps) == setups && Linked(ps, history, messages) && turns == log + Filed(ps)
    ensures AllProper(ps)
    ensures WellPaired(history) ==> PairedWhileSafe(ps)
  {
    messages, turns, ps := history, log, Nil;
    for i := 0 to |setups|
      invariant Setups(ps) == setups[..i] && Linked(ps, history, messages) && turns == log + Filed(ps)
      invariant AllProper(ps)
      invariant WellPaired(history) ==> PairedWhileSafe(ps)
      invariant WellPaired(history) && AllSafe(ps) ==> WellPaired(messages)
    {
      var p;
      p, turns := Advance(setups[i], messages, turns);
      ProperNext(ps, p);
      ps := Snoc(ps, p);
      messages := p.after;
    }
  }
}
