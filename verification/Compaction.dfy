/** Context compaction: truncate oversized tool outputs, then summarise the middle. */
module Compaction {
  import opened Common
  import opened Messages
  import opened Text

  const CHARS_PER_TOKEN := 4
  const TOOL_TRUNCATE_MIN_CHARS := 32_000
  const TOOL_TRUNCATE_KEEP_HEAD_CHARS := 8_000
  const TOOL_TRUNCATE_KEEP_TAIL_CHARS := 4_000
  const MIN_SUMMARY_OUTPUT_TOKENS := 800
  const SUMMARY_HEADER := "[auto-compacted summary]\n"
  const ELISION_OPEN := "\n\n[... "
  const ELISION_CLOSE := " chars elided by auto-compact ...]\n\n"
  /** Characters of an elision marker besides the count it prints. */
  const ELISION_OVERHEAD := 43

  datatype Policy = Policy(triggerRatio: real, targetRatio: real, keepHead: int, keepTail: int)

  const DEFAULT_POLICY := Policy(0.75, 0.40, 2, 8)

  // ---------- token estimate ----------

  function EstimateTokens(content: Json): nat
    decreases content, 0
  {
    match content
    case JNull => 0
    case JStr(s) => Max(1, |s| / CHARS_PER_TOKEN)
    case JList(items) => EstimateAll(items)
    case JDict(values) => EstimateAll(values)
    case JOther(rendered) => Max(1, |rendered| / CHARS_PER_TOKEN)
  }

  function EstimateAll(items: seq<Json>): nat
    decreases items, 1
  {
    if items == [] then 0 else EstimateTokens(items[0]) + EstimateAll(items[1..])
  }

  function EstimateCalls(calls: seq<Call>): nat {
    if calls == [] then 0
    else EstimateCalls(calls[..|calls| - 1])
         + EstimateTokens(JStr(calls[|calls| - 1].arguments))
         + EstimateTokens(JStr(calls[|calls| - 1].name))
  }

  function MessageTokens(m: Message): nat {
    Max(1, EstimateTokens(m.content) + if m.Assistant? then EstimateCalls(m.calls) else 0)
  }

  function TotalTokens(ms: seq<Message>): nat {
    if ms == [] then 0 else TotalTokens(ms[..|ms| - 1]) + MessageTokens(ms[|ms| - 1])
  }

  method EstimateMessageTokens(m: Message) returns (total: nat)
    ensures total == MessageTokens(m)
  {
    total := EstimateTokens(m.content);
    if m.Assistant? {
      for i := 0 to |m.calls|
        invariant total == EstimateTokens(m.content) + EstimateCalls(m.calls[..i])
      {
        assert m.calls[..i + 1][..i] == m.calls[..i];
        total := total + EstimateTokens(JStr(m.calls[i].arguments));
        total := total + EstimateTokens(JStr(m.calls[i].name));
      }
      assert m.calls[..|m.calls|] == m.calls;
    }
    total := Max(1, total);
  }

  method EstimateMessagesTokens(ms: seq<Message>) returns (total: nat)
    ensures total == TotalTokens(ms)
  {
    total := 0;
    for i := 0 to |ms|
      invariant total == TotalTokens(ms[..i])
    {
      assert ms[..i + 1][..i] == ms[..i];
      var one := EstimateMessageTokens(ms[i]);
      total := total + one;
    }
    assert ms[..|ms|] == ms;
  }

  lemma {:induction false} TotalTokensConcat(a: seq<Message>, b: seq<Message>)
    ensures TotalTokens(a + b) == TotalTokens(a) + TotalTokens(b)
  {
    if b == [] {
      assert a + b == a;
    } else {
      TotalTokensConcat(a, b[..|b| - 1]);
      assert (a + b)[..|a + b| - 1] == a + b[..|b| - 1];
    }
  }

  /** The characters of a content, and the number of texts they stand in. */
  function Chars(content: Json): nat
    decreases content, 0
  {
    match content
    case JNull => 0
    case JStr(s) => |s|
    case JList(items) => AllChars(items)
    case JDict(values) => AllChars(values)
    case JOther(rendered) => |rendered|
  }

  function AllChars(items: seq<Json>): nat
    decreases items, 1
  {
    if items == [] then 0 else Chars(items[0]) + AllChars(items[1..])
  }

  function Texts(content: Json): nat
    decreases content, 0
  {
    match content
    case JNull => 0
    case JStr(_) => 1
    case JList(items) => AllTexts(items)
    case JDict(values) => AllTexts(values)
    case JOther(_) => 1
  }

  function AllTexts(items: seq<Json>): nat
    decreases items, 1
  {
    if items == [] then 0 else Texts(items[0]) + AllTexts(items[1..])
  }

  /** The estimate is a quarter of the characters, up to less than one token for each text. */
  lemma {:induction false} EstimateIsAQuarter(content: Json)
    ensures Chars(content) - 3 * Texts(content) <= 4 * EstimateTokens(content) <= Chars(content) + 4 * Texts(content)
    decreases content, 0
  {
    match content
    case JList(items) => EstimatesAreQuarters(items);
    case JDict(values) => EstimatesAreQuarters(values);
    case _ =>
  }

  lemma {:induction false} EstimatesAreQuarters(items: seq<Json>)
    ensures AllChars(items) - 3 * AllTexts(items) <= 4 * EstimateAll(items) <= AllChars(items) + 4 * AllTexts(items)
    decreases items, 1
  {
    if items != [] {
      EstimateIsAQuarter(items[0]);
      EstimatesAreQuarters(items[1..]);
    }
  }

  /** The texts of a message: its content, and the arguments and the name of each call. */
  function TextsOf(m: Message): seq<Json> {
    [m.content] + if m.Assistant? then CallTexts(m.calls) else []
  }

  function CallTexts(calls: seq<Call>): seq<Json> {
    if calls == [] then []
    else CallTexts(calls[..|calls| - 1]) + [JStr(calls[|calls| - 1].arguments), JStr(calls[|calls| - 1].name)]
  }

  /** A message costs what its texts cost, and at least one token. */
  lemma MessageCostsItsTexts(m: Message)
    ensures MessageTokens(m) == if EstimateAll(TextsOf(m)) == 0 then 1 else EstimateAll(TextsOf(m))
  {
    EstimateOne(m.content);
    if m.Assistant? {
      CallsCostTheirTexts(m.calls);
      EstimateAllConcat([m.content], CallTexts(m.calls));
    } else {
      assert TextsOf(m) == [m.content];
    }
  }

  lemma {:induction false} CallsCostTheirTexts(calls: seq<Call>)
    ensures EstimateCalls(calls) == EstimateAll(CallTexts(calls))
  {
    if calls != [] {
      var last := calls[|calls| - 1];
      var two := [JStr(last.arguments), JStr(last.name)];
      CallsCostTheirTexts(calls[..|calls| - 1]);
      EstimateAllConcat(CallTexts(calls[..|calls| - 1]), two);
      EstimateAllConcat([JStr(last.arguments)], [JStr(last.name)]);
      EstimateOne(JStr(last.arguments));
      EstimateOne(JStr(last.name));
      assert two == [JStr(last.arguments)] + [JStr(last.name)];
    }
  }

  lemma EstimateOne(content: Json)
    ensures EstimateAll([content]) == EstimateTokens(content)
  {
    assert [content][1..] == [];
  }

  lemma {:induction false} EstimateAllConcat(a: seq<Json>, b: seq<Json>)
    ensures EstimateAll(a + b) == EstimateAll(a) + EstimateAll(b)
  {
    if a == [] {
      assert a + b == b;
    } else {
      EstimateAllConcat(a[1..], b);
      assert (a + b)[1..] == a[1..] + b;
    }
  }

  // ---------- tool-output truncation ----------

  predicate Oversized(m: Message) {
    m.Tool? && m.content.JStr? && |m.content.s| >= TOOL_TRUNCATE_MIN_CHARS
  }

  function Dropped(content: string): nat
    requires |content| >= TOOL_TRUNCATE_MIN_CHARS
  {
    |content| - TOOL_TRUNCATE_KEEP_HEAD_CHARS - TOOL_TRUNCATE_KEEP_TAIL_CHARS
  }

  function Elide(content: string): string
    requires |content| >= TOOL_TRUNCATE_MIN_CHARS
  {
    content[..TOOL_TRUNCATE_KEEP_HEAD_CHARS]
    + ELISION_OPEN + Decimal(Dropped(content)) + ELISION_CLOSE
    + content[|content| - TOOL_TRUNCATE_KEEP_TAIL_CHARS..]
  }

  function Truncate(m: Message): Message {
    if Oversized(m) then Tool(m.callId, m.name, JStr(Elide(m.content.s))) else m
  }

  function TruncateAll(ms: seq<Message>): (r: seq<Message>)
    ensures |r| == |ms| && forall i :: 0 <= i < |ms| ==> r[i] == Truncate(ms[i])
  {
    seq(|ms|, i requires 0 <= i < |ms| => Truncate(ms[i]))
  }

  function CountOversized(ms: seq<Message>): nat {
    if ms == [] then 0
    else CountOversized(ms[..|ms| - 1]) + if Oversized(ms[|ms| - 1]) then 1 else 0
  }

  /** The cheap first pass, in place. */
  method TruncateOversizedTools(messages: array<Message>) returns (count: nat)
    modifies messages
    ensures messages[..] == TruncateAll(old(messages[..]))
    ensures count == CountOversized(old(messages[..]))
  {
    count := 0;
    ghost var was := messages[..];
    for i := 0 to messages.Length
      invariant |was| == messages.Length
      invariant forall k :: 0 <= k < i ==> messages[k] == Truncate(was[k])
      invariant forall k :: i <= k < messages.Length ==> messages[k] == was[k]
      invariant count == CountOversized(was[..i])
    {
      assert was[..i + 1][..i] == was[..i];
      var m := messages[i];
      if m.Tool? && m.content.JStr? && |m.content.s| >= TOOL_TRUNCATE_MIN_CHARS {
        var content := m.content.s;
        var head := content[..TOOL_TRUNCATE_KEEP_HEAD_CHARS];
        var tail := content[|content| - TOOL_TRUNCATE_KEEP_TAIL_CHARS..];
        var dropped := |content| - |head| - |tail|;
        messages[i] := Tool(m.callId, m.name,
                            JStr(head + ELISION_OPEN + Decimal(dropped) + ELISION_CLOSE + tail));
        count := count + 1;
      }
    }
    assert was[..messages.Length] == was;
  }

  /** Truncation strictly shrinks every message it touches and never changes the others. */
  lemma TruncationShrinks(m: Message)
    ensures Oversized(m) ==> |Truncate(m).content.s| < |m.content.s|
    ensures !Oversized(m) ==> Truncate(m) == m
    ensures Skeleton(Truncate(m)) == Skeleton(m)
    ensures MessageTokens(Truncate(m)) <= MessageTokens(m)
  {
    if Oversized(m) {
      DigitCount(Dropped(m.content.s));
    }
  }

  /**
   * What truncation leaves: a tool message of 32,000 characters or more keeps its first 8,000 and its last
   * 4,000, around a line that says how many are gone; any other message is left as it is.
   */
  lemma TruncatedShows(m: Message)
    ensures if m.Tool? && m.content.JStr? && |m.content.s| >= 32_000 then
              var s, t := m.content.s, Truncate(m);
              && t.Tool? && t.callId == m.callId && t.name == m.name && t.content.JStr?
              && Around(t.content.s, s[..8_000], |s| - 12_000, s[|s| - 4_000..])
            else Truncate(m) == m
  {
    if Oversized(m) {
      var s := m.content.s;
      assert Elide(s) == s[..8_000] + ELISION_OPEN + Decimal(|s| - 12_000) + ELISION_CLOSE + s[|s| - 4_000..];
    }
  }

  /** `text` is `head`, the line that says `count` characters are gone, and `tail`. */
  predicate Around(text: string, head: string, count: nat, tail: string) {
    text == head + "\n\n[... " + Decimal(count) + " chars elided by auto-compact ...]\n\n" + tail
  }

  /**
   * A second pass leaves a message alone exactly when the count printed by the first one has
   * fewer than 19,957 digits, so certainly whenever it has fewer than 19,000.
   */
  lemma SecondPassStable(m: Message)
    ensures Truncate(Truncate(m)) == Truncate(m) <==>
            (Oversized(m) ==>
               |Decimal(Dropped(m.content.s))| < TOOL_TRUNCATE_MIN_CHARS - 12_000 - ELISION_OVERHEAD)
  {
    TruncationShrinks(Truncate(m));
  }

  lemma {:induction false} TruncationNeverCostsTokens(ms: seq<Message>)
    ensures TotalTokens(TruncateAll(ms)) <= TotalTokens(ms)
  {
    if ms != [] {
      TruncationNeverCostsTokens(ms[..|ms| - 1]);
      TruncationShrinks(ms[|ms| - 1]);
      assert TruncateAll(ms)[..|ms| - 1] == TruncateAll(ms[..|ms| - 1]);
    }
  }

  // ---------- partition ----------

  /** Number of leading system messages. */
  function SystemEnd(ms: seq<Message>): (n: nat)
    ensures n <= |ms|
    ensures forall i :: 0 <= i < n ==> ms[i].System?
    ensures n < |ms| ==> !ms[n].System?
  {
    if ms != [] && ms[0].System? then 1 + SystemEnd(ms[1..]) else 0
  }

  datatype Pieces = Pieces(prefix: seq<Message>, head: seq<Message>, middle: seq<Message>, tail: seq<Message>) {
    function All(): seq<Message> { prefix + head + middle + tail }
  }

  /** Where the head anchor ends and the tail begins, as absolute indices. */
  function HeadEnd(ms: seq<Message>, keepHead: int, keepTail: int): (h: nat)
    ensures SystemEnd(ms) <= h <= |ms|
  {
    var h, t := Max(0, keepHead), Max(0, keepTail);
    if h + t >= |ms| - SystemEnd(ms) then |ms| else SystemEnd(ms) + h
  }

  function TailStart(ms: seq<Message>, keepHead: int, keepTail: int): (t: nat)
    ensures HeadEnd(ms, keepHead, keepTail) <= t <= |ms|
  {
    var h, t := Max(0, keepHead), Max(0, keepTail);
    if h + t >= |ms| - SystemEnd(ms) then |ms| else |ms| - t
  }

  function Split(ms: seq<Message>, keepHead: int, keepTail: int): Pieces {
    var s := SystemEnd(ms);
    var h, t := HeadEnd(ms, keepHead, keepTail), TailStart(ms, keepHead, keepTail);
    Pieces(ms[..s], ms[s..h], ms[h..t], ms[t..])
  }

  /**
   * The source's partition. Its pieces concatenate back to the input; the prefix is all the
   * leading system messages; when there is a middle, head and tail have the sizes asked for.
   */
  method Partition(messages: seq<Message>, keepHead: int, keepTail: int) returns (p: Pieces)
    ensures p == Split(messages, keepHead, keepTail)
    ensures p.All() == messages
    ensures forall m :: m in p.prefix ==> m.System?
    ensures p.head != [] ==> !p.head[0].System?
    ensures p.middle != [] ==> |p.head| == Max(0, keepHead) && |p.tail| == Max(0, keepTail)
  {
    var n := |messages|;
    var systemEnd := 0;
    while systemEnd < n && messages[systemEnd].System?
      invariant systemEnd <= n
      invariant forall i :: 0 <= i < systemEnd ==> messages[i].System?
    {
      systemEnd := systemEnd + 1;
    }
    assert systemEnd == SystemEnd(messages);
    SplitSpec(messages, keepHead, keepTail);
    SplitIsAt(messages, keepHead, keepTail);
    p := Cut(messages, systemEnd, Max(0, keepHead), Max(0, keepTail));
  }

  /** The slices of the source, once the prefix is known. */
  method Cut(messages: seq<Message>, systemEnd: nat, kh: nat, kt: nat) returns (p: Pieces)
    requires systemEnd <= |messages|
    ensures p == SplitAt(messages, systemEnd, kh, kt)
  {
    var prefix := messages[..systemEnd];
    var body := messages[systemEnd..];
    if body == [] {
      return Pieces(prefix, [], [], []);
    }
    if kh + kt >= |body| {
      return Pieces(prefix, body, [], []);
    }
    var head := body[..kh];
    var tail := if kt != 0 then body[|body| - kt..] else [];
    var middle := body[kh..|body| - kt];
    SlicesOfBody(messages, systemEnd, kh, kt);
    p := Pieces(prefix, head, middle, tail);
  }

  /** The pieces around a prefix of `s` messages. */
  function SplitAt(ms: seq<Message>, s: nat, kh: nat, kt: nat): Pieces
    requires s <= |ms|
  {
    if kh + kt >= |ms| - s then Pieces(ms[..s], ms[s..], [], [])
    else Pieces(ms[..s], ms[s..s + kh], ms[s + kh..|ms| - kt], ms[|ms| - kt..])
  }

  lemma SplitIsAt(ms: seq<Message>, keepHead: int, keepTail: int)
    ensures Split(ms, keepHead, keepTail) == SplitAt(ms, SystemEnd(ms), Max(0, keepHead), Max(0, keepTail))
  {
  }

  lemma SlicesOfBody(ms: seq<Message>, s: nat, kh: nat, kt: nat)
    requires s + kh + kt <= |ms|
    ensures var body := ms[s..];
            && body[..kh] == ms[s..s + kh] && body[kh..|body| - kt] == ms[s + kh..|ms| - kt]
            && body[|body| - kt..] == ms[|ms| - kt..]
  {
  }

  lemma SplitSpec(ms: seq<Message>, keepHead: int, keepTail: int)
    ensures var p := Split(ms, keepHead, keepTail);
            && p.All() == ms && (forall m :: m in p.prefix ==> m.System?)
            && (p.head != [] ==> !p.head[0].System?)
            && (p.middle != [] ==> |p.head| == Max(0, keepHead) && |p.tail| == Max(0, keepTail))
  {
    SplitCovers(ms, keepHead, keepTail);
  }

  lemma SplitCovers(ms: seq<Message>, keepHead: int, keepTail: int)
    ensures Split(ms, keepHead, keepTail).All() == ms
  {
    var s := SystemEnd(ms);
    var h, t := HeadEnd(ms, keepHead, keepTail), TailStart(ms, keepHead, keepTail);
    assert ms[..s] + ms[s..h] == ms[..h];
    assert ms[..h] + ms[h..t] == ms[..t];
    assert ms[..t] + ms[t..] == ms;
  }

  // ---------- splice ----------

  /** The reply-less assistant message put before a tail that opens with a reply. */
  function Stub(first: Message): Message
    requires first.Tool?
  {
    var name := if first.name == "" then "tool" else first.name;
    var id := if first.callId == "" then "compacted-" + name else first.callId;
    Assistant(JNull, [Call(id, name, "{}")])
  }

  function CoalesceTail(tail: seq<Message>): seq<Message> {
    if tail == [] || !tail[0].Tool? then tail else [Stub(tail[0])] + tail
  }

  /** `int(x)`: truncation toward zero. */
  function Int(x: real): int {
    if x >= 0.0 then x.Floor else -((-x).Floor)
  }

  function Target(window: int, policy: Policy): int {
    Int(window as real * policy.targetRatio)
  }

  /** The target is its share of the window, rounded toward zero. */
  lemma TargetRounds(window: int, policy: Policy)
    ensures var share := window as real * policy.targetRatio;
            if share >= 0.0 then Target(window, policy) as real <= share < Target(window, policy) as real + 1.0
            else Target(window, policy) as real - 1.0 < share <= Target(window, policy) as real
  {
    var share := window as real * policy.targetRatio;
    assert share < 0.0 ==> (-share).Floor as real <= -share;
  }

  function SummaryMaxTokens(window: int, preserved: int, policy: Policy): int {
    Max(MIN_SUMMARY_OUTPUT_TOKENS, Target(window, policy) - preserved)
  }

  predicate ShouldCompact(ms: seq<Message>, userText: string, window: int, policy: Policy) {
    && window > 0
    && (TotalTokens(ms) + EstimateTokens(JStr(userText))) as real > policy.triggerRatio * window as real
  }

  /** A summariser: what it is shown and its token budget, to a text; `None` when it raises. */
  type Summarizer = (seq<Message>, int) -> Option<string>

  datatype Outcome = Outcome(messages: seq<Message>, fired: bool, truncated: nat, summarized: nat,
                             before: nat, after: nat)

  function Preserved(p: Pieces, userText: string): nat {
    TotalTokens(p.prefix) + TotalTokens(p.head) + TotalTokens(p.tail) + EstimateTokens(JStr(userText))
  }

  function SummaryText(p: Pieces, userText: string, window: int, summarize: Summarizer, policy: Policy): string {
    match summarize(p.middle, SummaryMaxTokens(window, Preserved(p, userText), policy))
    case None => ""
    case Some(text) => Strip(text)
  }

  function Splice(p: Pieces, summary: string): seq<Message> {
    p.prefix + p.head + [System(JStr(SUMMARY_HEADER + summary))] + CoalesceTail(p.tail)
  }

  function Compact(ms: seq<Message>, userText: string, window: int, summarize: Summarizer, policy: Policy,
                   force: bool): Outcome
  {
    var cut := TruncateAll(ms);
    var kept := Outcome(cut, false, CountOversized(ms), 0, TotalTokens(ms), TotalTokens(cut));
    if !force && !ShouldCompact(cut, userText, window, policy) then kept
    else
      var p := Split(cut, policy.keepHead, policy.keepTail);
      if p.middle == [] then kept
      else
        var summary := SummaryText(p, userText, window, summarize, policy);
        if summary == "" then kept
        else
          var rebuilt := Splice(p, summary);
          Outcome(rebuilt, true, CountOversized(ms), |p.middle|, TotalTokens(ms), TotalTokens(rebuilt))
  }

  /** The first message behind the anchored ones, and the first of the tail. */
  function MiddleFrom(ms: seq<Message>, policy: Policy): int { SystemEnd(ms) + Max(0, policy.keepHead) }

  function MiddleTo(ms: seq<Message>, policy: Policy): int { |ms| - Max(0, policy.keepTail) }

  predicate HasMiddle(ms: seq<Message>, policy: Policy) { MiddleFrom(ms, policy) < MiddleTo(ms, policy) }

  /** What the summariser is shown: the truncated messages between anchor and tail. */
  function Middle(ms: seq<Message>, policy: Policy): seq<Message>
    requires HasMiddle(ms, policy)
  {
    TruncateAll(ms)[MiddleFrom(ms, policy)..MiddleTo(ms, policy)]
  }

  /** What it is told it may use: what the target leaves over, and never less than 800 tokens. */
  function Budget(ms: seq<Message>, userText: string, window: int, policy: Policy): int
    requires HasMiddle(ms, policy)
  {
    Max(800, Target(window, policy) - Staying(ms, userText, policy))
  }

  /** The estimate of all that stays: what is before and behind the middle, and the user's text. */
  function Staying(ms: seq<Message>, userText: string, policy: Policy): nat
    requires HasMiddle(ms, policy)
  {
    var cut := TruncateAll(ms);
    TotalTokens(cut[..MiddleFrom(ms, policy)]) + TotalTokens(cut[MiddleTo(ms, policy)..]) + EstimateTokens(JStr(userText))
  }

  /** The answer can stand for the middle. */
  predicate Usable(answer: Option<string>) { answer.Some? && Strip(answer.value) != "" }

  /**
   * When compaction fires: it is forced or the truncated history is over the trigger, there are more
   * messages than the system prefix, head and tail take, and the summariser has something to say.
   */
  predicate Fires(ms: seq<Message>, userText: string, window: int, summarize: Summarizer, policy: Policy, force: bool) {
    && (force || (window > 0 && (TotalTokens(TruncateAll(ms)) + EstimateTokens(JStr(userText))) as real
                                > window as real * policy.triggerRatio))
    && HasMiddle(ms, policy)
    && Usable(summarize(Middle(ms, policy), Budget(ms, userText, window, policy)))
  }

  lemma FiresExactly(ms: seq<Message>, userText: string, window: int, summarize: Summarizer, policy: Policy, force: bool)
    ensures Compact(ms, userText, window, summarize, policy, force).fired <==>
            Fires(ms, userText, window, summarize, policy, force)
  {
    TruncationKeepsCuts(ms, policy.keepHead, policy.keepTail);
    if HasMiddle(ms, policy) {
      PiecesOfMiddle(ms, userText, window, policy);
    }
  }

  /** The pieces the source works with are the slices the guard speaks of. */
  lemma PiecesOfMiddle(ms: seq<Message>, userText: string, window: int, policy: Policy)
    requires HasMiddle(ms, policy)
    ensures var p := Split(TruncateAll(ms), policy.keepHead, policy.keepTail);
            && p.middle == Middle(ms, policy) && p.middle != []
            && SummaryMaxTokens(window, Preserved(p, userText), policy) == Budget(ms, userText, window, policy)
  {
    PiecesThatStay(ms, userText, policy);
  }

  lemma PiecesThatStay(ms: seq<Message>, userText: string, policy: Policy)
    requires HasMiddle(ms, policy)
    ensures var p := Split(TruncateAll(ms), policy.keepHead, policy.keepTail);
            && p.middle == Middle(ms, policy) && p.middle != [] && p.tail == TruncateAll(ms)[MiddleTo(ms, policy)..]
            && Preserved(p, userText) == Staying(ms, userText, policy)
  {
    var p := Split(TruncateAll(ms), policy.keepHead, policy.keepTail);
    PiecesAre(ms, policy);
    TotalTokensConcat(p.prefix, p.head);
  }

  lemma PiecesAre(ms: seq<Message>, policy: Policy)
    requires HasMiddle(ms, policy)
    ensures var cut := TruncateAll(ms);
            var p := Split(cut, policy.keepHead, policy.keepTail);
            && p.middle == Middle(ms, policy) && p.middle != []
            && p.prefix + p.head == cut[..MiddleFrom(ms, policy)] && p.tail == cut[MiddleTo(ms, policy)..]
  {
    TruncationKeepsCuts(ms, policy.keepHead, policy.keepTail);
    CutsOf(TruncateAll(ms), policy.keepHead, policy.keepTail);
  }

  /** Where the pieces of a history with a middle lie. */
  lemma CutsOf(cut: seq<Message>, keepHead: int, keepTail: int)
    requires SystemEnd(cut) + Max(0, keepHead) < |cut| - Max(0, keepTail)
    ensures var p, h, t := Split(cut, keepHead, keepTail), SystemEnd(cut) + Max(0, keepHead), |cut| - Max(0, keepTail);
            p.prefix + p.head == cut[..h] && p.middle == cut[h..t] && p.tail == cut[t..]
  {
    SlicesMeet(cut, SystemEnd(cut), HeadEnd(cut, keepHead, keepTail));
  }

  lemma SlicesMeet<T>(s: seq<T>, i: nat, j: nat)
    requires i <= j <= |s|
    ensures s[..i] + s[i..j] == s[..j]
  {
  }

  /** A pass that does not summarise keeps length, roles, ids and calls, and never raises the estimate. */
  lemma UnfiredKeepsHistory(ms: seq<Message>, userText: string, window: int, summarize: Summarizer,
                            policy: Policy, force: bool)
    ensures var out := Compact(ms, userText, window, summarize, policy, force);
            !out.fired ==>
              && |out.messages| == |ms|
              && (forall i :: 0 <= i < |ms| ==> Skeleton(out.messages[i]) == Skeleton(ms[i]))
              && out.after <= out.before
              && (out.truncated == 0 ==> out.messages == ms)
  {
    TruncationNeverCostsTokens(ms);
    forall i | 0 <= i < |ms| ensures Skeleton(Truncate(ms[i])) == Skeleton(ms[i]) {
      TruncationShrinks(ms[i]);
    }
    NothingOversized(ms);
  }

  /** A pass that neither truncates nor fires hands back its input. */
  lemma NothingDone(ms: seq<Message>, userText: string, window: int, summarize: Summarizer,
                    policy: Policy, force: bool)
    requires var out := Compact(ms, userText, window, summarize, policy, force); !out.fired && out.truncated == 0
    ensures Compact(ms, userText, window, summarize, policy, force).messages == ms
  {
    NothingOversized(ms);
  }

  lemma {:induction false} NothingOversized(ms: seq<Message>)
    ensures CountOversized(ms) == 0 ==> TruncateAll(ms) == ms
  {
    if ms != [] {
      var init := ms[..|ms| - 1];
      NothingOversized(init);
      if CountOversized(ms) == 0 {
        assert forall i :: 0 <= i < |init| ==> TruncateAll(init)[i] == Truncate(ms[i]);
        assert ms == init + [ms[|ms| - 1]];
      }
    }
  }

  /** A summariser that raises or returns blank text when it is asked never costs history. */
  lemma FailedSummaryDoesNotFire(ms: seq<Message>, userText: string, window: int, summarize: Summarizer,
                                 policy: Policy, force: bool)
    requires HasMiddle(ms, policy) ==> !Usable(summarize(Middle(ms, policy), Budget(ms, userText, window, policy)))
    ensures Compact(ms, userText, window, summarize, policy, force).messages == TruncateAll(ms)
    ensures !Compact(ms, userText, window, summarize, policy, force).fired
  {
    FiresExactly(ms, userText, window, summarize, policy, force);
  }

  /** `out` keeps `cut` up to `h` and from `t` on, around `summary`. */
  predicate Rebuilt(out: seq<Message>, cut: seq<Message>, h: nat, t: nat, summary: Message)
  {
    && h < t <= |cut| && summary.System?
    && out == (cut[..h] + [summary]) + CoalesceTail(cut[t..])
  }

  /** The two cuts of a firing compaction, and what is put between them. */
  lemma FiredForm(ms: seq<Message>, userText: string, window: int, summarize: Summarizer,
                  policy: Policy, force: bool) returns (h: nat, t: nat, summary: Message)
    requires Compact(ms, userText, window, summarize, policy, force).fired
    ensures h == HeadEnd(ms, policy.keepHead, policy.keepTail)
    ensures t == TailStart(ms, policy.keepHead, policy.keepTail)
    ensures h == SystemEnd(ms) + Max(0, policy.keepHead)
    ensures Rebuilt(Compact(ms, userText, window, summarize, policy, force).messages, TruncateAll(ms), h, t, summary)
  {
    var cut := TruncateAll(ms);
    TruncationKeepsCuts(ms, policy.keepHead, policy.keepTail);
    h, t := HeadEnd(ms, policy.keepHead, policy.keepTail), TailStart(ms, policy.keepHead, policy.keepTail);
    var p := Split(cut, policy.keepHead, policy.keepTail);
    var text := SummaryText(p, userText, window, summarize, policy);
    summary := System(JStr(SUMMARY_HEADER + text));
    FiredCuts(cut, policy.keepHead, policy.keepTail);
    FiredMessages(ms, userText, window, summarize, policy, force);
  }

  /** A middle exists only when head and tail have the sizes asked for. */
  lemma FiredCuts(cut: seq<Message>, keepHead: int, keepTail: int)
    requires Split(cut, keepHead, keepTail).middle != []
    ensures var h, t, p := HeadEnd(cut, keepHead, keepTail), TailStart(cut, keepHead, keepTail), Split(cut, keepHead, keepTail);
            && h < t && h == SystemEnd(cut) + Max(0, keepHead)
            && p.prefix + p.head == cut[..h] && p.tail == cut[t..]
  {
  }

  lemma FiredMessages(ms: seq<Message>, userText: string, window: int, summarize: Summarizer, policy: Policy, force: bool)
    requires Compact(ms, userText, window, summarize, policy, force).fired
    ensures var p := Split(TruncateAll(ms), policy.keepHead, policy.keepTail);
            && p.middle != []
            && Compact(ms, userText, window, summarize, policy, force).messages
               == Splice(p, SummaryText(p, userText, window, summarize, policy))
  {
  }

  /** The reply-less assistant message a tail needs that opens with a reply. */
  function Bridge(first: Message): seq<Message> {
    if !first.Tool? then []
    else
      var name := if first.name != "" then first.name else "tool";
      [Assistant(JNull, [Call(if first.callId != "" then first.callId else "compacted-" + name, name, "{}")])]
  }

  /** `out` is `cut` with everything from `h` to `t` replaced by `text`, and a bridge where the tail needs one. */
  predicate Replaced(out: seq<Message>, cut: seq<Message>, h: nat, t: nat, text: string) {
    && h < t <= |cut|
    && out == cut[..h] + [System(JStr(text))] + (if t < |cut| then Bridge(cut[t]) else []) + cut[t..]
  }

  /** The summary is the answer to the one request, stripped. */
  lemma AnswerIsUsed(ms: seq<Message>, userText: string, window: int, summarize: Summarizer, policy: Policy)
    requires HasMiddle(ms, policy) && Usable(summarize(Middle(ms, policy), Budget(ms, userText, window, policy)))
    ensures SummaryText(Split(TruncateAll(ms), policy.keepHead, policy.keepTail), userText, window, summarize, policy)
            == Strip(summarize(Middle(ms, policy), Budget(ms, userText, window, policy)).value)
  {
    PiecesOfMiddle(ms, userText, window, policy);
  }

  /**
   * When it fires, everything but the middle survives in order, and in its place stands one message:
   * the header and what the summariser answered to the one request, stripped.
   */
  lemma FiredShape(ms: seq<Message>, userText: string, window: int, summarize: Summarizer,
                   policy: Policy, force: bool)
    requires Compact(ms, userText, window, summarize, policy, force).fired
    ensures HasMiddle(ms, policy) && summarize(Middle(ms, policy), Budget(ms, userText, window, policy)).Some?
    ensures var out := Compact(ms, userText, window, summarize, policy, force);
            var answer := summarize(Middle(ms, policy), Budget(ms, userText, window, policy)).value;
            Replaced(out.messages, TruncateAll(ms), MiddleFrom(ms, policy), MiddleTo(ms, policy),
                     "[auto-compacted summary]\n" + Strip(answer))
  {
    FiresExactly(ms, userText, window, summarize, policy, force);
    AnswerIsUsed(ms, userText, window, summarize, policy);
    FiredMessages(ms, userText, window, summarize, policy, force);
    SplicedHere(ms, policy, Strip(summarize(Middle(ms, policy), Budget(ms, userText, window, policy)).value));
  }

  lemma SplicedHere(ms: seq<Message>, policy: Policy, text: string)
    requires HasMiddle(ms, policy)
    ensures Replaced(Splice(Split(TruncateAll(ms), policy.keepHead, policy.keepTail), text), TruncateAll(ms),
                     MiddleFrom(ms, policy), MiddleTo(ms, policy), SUMMARY_HEADER + text)
  {
    TruncationKeepsCuts(ms, policy.keepHead, policy.keepTail);
    SplicedIs(TruncateAll(ms), policy.keepHead, policy.keepTail, text);
  }

  lemma SplicedIs(cut: seq<Message>, keepHead: int, keepTail: int, text: string)
    requires Split(cut, keepHead, keepTail).middle != []
    ensures Replaced(Splice(Split(cut, keepHead, keepTail), text), cut, HeadEnd(cut, keepHead, keepTail),
                     TailStart(cut, keepHead, keepTail), SUMMARY_HEADER + text)
  {
    FiredCuts(cut, keepHead, keepTail);
    var t := TailStart(cut, keepHead, keepTail);
    assert t < |cut| ==> cut[t..][0] == cut[t];
  }

  /** Whether it fires or not, the figures it reports are those of what it found and of what it leaves. */
  lemma Reported(ms: seq<Message>, userText: string, window: int, summarize: Summarizer, policy: Policy, force: bool)
    ensures var out := Compact(ms, userText, window, summarize, policy, force);
            && out.before == TotalTokens(ms) && out.after == TotalTokens(out.messages)
            && out.truncated == CountOversized(ms)
            && if out.fired then HasMiddle(ms, policy) && out.summarized == MiddleTo(ms, policy) - MiddleFrom(ms, policy)
               else out.summarized == 0 && out.messages == TruncateAll(ms)
  {
    FiresExactly(ms, userText, window, summarize, policy, force);
    TruncationKeepsCuts(ms, policy.keepHead, policy.keepTail);
  }

  /** Everything before `h` and from `t` on is still there, with one system message in between. */
  predicate SurvivesAround(out: seq<Message>, cut: seq<Message>, h: nat, t: nat) {
    && h < t <= |cut|
    && h + 1 + |cut| - t <= |out| <= h + 2 + |cut| - t
    && out[..h] == cut[..h]
    && out[h].System?
    && out[|out| - (|cut| - t)..] == cut[t..]
  }

  lemma FiredSurvives(ms: seq<Message>, userText: string, window: int, summarize: Summarizer,
                      policy: Policy, force: bool)
    requires Compact(ms, userText, window, summarize, policy, force).fired
    ensures SurvivesAround(Compact(ms, userText, window, summarize, policy, force).messages, TruncateAll(ms),
                           HeadEnd(ms, policy.keepHead, policy.keepTail),
                           TailStart(ms, policy.keepHead, policy.keepTail))
  {
    var h, t, summary := FiredForm(ms, userText, window, summarize, policy, force);
    RebuiltShape(Compact(ms, userText, window, summarize, policy, force).messages, TruncateAll(ms), h, t, summary);
  }

  lemma RebuiltShape(out: seq<Message>, cut: seq<Message>, h: nat, t: nat, summary: Message)
    requires Rebuilt(out, cut, h, t, summary)
    ensures SurvivesAround(out, cut, h, t)
  {
  }

  lemma TruncationKeepsCuts(ms: seq<Message>, keepHead: int, keepTail: int)
    ensures SystemEnd(TruncateAll(ms)) == SystemEnd(ms)
    ensures HeadEnd(TruncateAll(ms), keepHead, keepTail) == HeadEnd(ms, keepHead, keepTail)
    ensures TailStart(TruncateAll(ms), keepHead, keepTail) == TailStart(ms, keepHead, keepTail)
  {
  }

  // ---------- pairing ----------

  /** The two cuts of a firing compaction miss every call group, up to one reply with an id. */
  predicate CutsSafe(ms: seq<Message>, keepHead: int, keepTail: int) {
    CutsSafeAt(ms, HeadEnd(ms, keepHead, keepTail), TailStart(ms, keepHead, keepTail))
  }

  /**
   * Compaction of a paired history stays paired exactly when it does not fire or its cuts are
   * safe: the head does not end inside a call group, and the tail opens with at most one reply,
   * whose call id is not empty.
   */
  lemma CompactionPairing(ms: seq<Message>, userText: string, window: int, summarize: Summarizer,
                          policy: Policy, force: bool)
    requires WellPaired(ms)
    ensures WellPaired(Compact(ms, userText, window, summarize, policy, force).messages) <==>
            (Fires(ms, userText, window, summarize, policy, force) ==> CutsSafe(ms, policy.keepHead, policy.keepTail))
  {
    TruncationKeepsPairing(ms);
    FiresExactly(ms, userText, window, summarize, policy, force);
    if Compact(ms, userText, window, summarize, policy, force).fired {
      var h, t, summary := FiredForm(ms, userText, window, summarize, policy, force);
      RebuiltPairing(Compact(ms, userText, window, summarize, policy, force).messages, ms, h, t, summary);
    }
  }

  /** Safe cuts keep pairing whatever the window, the trigger and the summariser's answer. */
  lemma SafeCutsSuffice(ms: seq<Message>, userText: string, window: int, summarize: Summarizer,
                        policy: Policy, force: bool)
    requires WellPaired(ms) && CutsSafe(ms, policy.keepHead, policy.keepTail)
    ensures WellPaired(Compact(ms, userText, window, summarize, policy, force).messages)
  {
    CompactionPairing(ms, userText, window, summarize, policy, force);
  }

  /** Unsafe cuts cost pairing as soon as a compaction is forced and the summariser answers anything. */
  lemma UnsafeCutsBreak(ms: seq<Message>, userText: string, window: int, summarize: Summarizer, policy: Policy)
    requires WellPaired(ms) && !CutsSafe(ms, policy.keepHead, policy.keepTail) && HasMiddle(ms, policy)
    requires Usable(summarize(Middle(ms, policy), Budget(ms, userText, window, policy)))
    ensures !WellPaired(Compact(ms, userText, window, summarize, policy, true).messages)
  {
    CompactionPairing(ms, userText, window, summarize, policy, true);
  }

  /** After its system messages the history goes on with a question and a reply with tool calls. */
  predicate OpensWithCalls(ms: seq<Message>) {
    var s := SystemEnd(ms);
    s + 2 <= |ms| && ms[s].User? && ms[s + 1].Assistant? && ms[s + 1].calls != []
  }

  /**
   * Under the default policy the head is two messages, so in a session whose first turn opens with
   * tool calls a compaction that fires cuts those calls off from their replies.
   */
  lemma DefaultHeadBreaksPairing(ms: seq<Message>, userText: string, window: int, summarize: Summarizer, force: bool)
    requires WellPaired(ms) && OpensWithCalls(ms)
    requires Fires(ms, userText, window, summarize, DEFAULT_POLICY, force)
    ensures !WellPaired(Compact(ms, userText, window, summarize, DEFAULT_POLICY, force).messages)
  {
    CompactionPairing(ms, userText, window, summarize, DEFAULT_POLICY, force);
    var s := SystemEnd(ms);
    PairedCut(ms, s);
    ReplyFollows(ms[s..]);
    assert HeadEnd(ms, 2, 8) == s + 2;
  }

  lemma ReplyFollows(ms: seq<Message>)
    requires WellPaired(ms) && |ms| >= 2 && ms[0].User? && ms[1].Assistant? && ms[1].calls != []
    ensures |ms| > 2 && ms[2].Tool?
  {
    var rest := ms[1..];
    PairedUnit(ms);
    PairedUnit(rest);
    assert rest[0] == ms[1];
    assert ms[2] == rest[1..UnitLength(rest[0])][0];
  }

  /** Such a session: the system prompt, a question, one tool call answered, and eight more messages. */
  function OrdinarySession(x: string): seq<Message> {
    [System(JStr("s")), User(JStr("q")), Assistant(JNull, [Call("1", "f", "{}")]), Tool("1", "f", JStr("r"))]
    + seq(8, i => User(JStr(x)))
  }

  /** Whatever the window, with messages long enough to fill it and a summariser that answers. */
  lemma OrdinarySessionBreaks(x: string, window: int, summarize: Summarizer)
    requires 0 < window && CHARS_PER_TOKEN * window <= |x| && HasMiddle(OrdinarySession(x), DEFAULT_POLICY)
    requires Usable(summarize(Middle(OrdinarySession(x), DEFAULT_POLICY), Budget(OrdinarySession(x), "", window, DEFAULT_POLICY)))
    ensures WellPaired(OrdinarySession(x))
    ensures !WellPaired(Compact(OrdinarySession(x), "", window, summarize, DEFAULT_POLICY, false).messages)
  {
    var ms := OrdinarySession(x);
    OrdinarySessionPaired(x);
    var cut := TruncateAll(ms);
    assert cut[11] == User(JStr(x)) && |x| / CHARS_PER_TOKEN >= window;
    assert TotalTokens(cut) >= window;
    DefaultHeadBreaksPairing(ms, "", window, summarize, false);
  }

  lemma OrdinarySessionPaired(x: string)
    ensures WellPaired(OrdinarySession(x))
  {
    var ms := OrdinarySession(x);
    UsersPaired(ms[4..]);
    PairedUnit(ms[2..]);
    assert ms[2..][0] == ms[2] && ms[2..][2..] == ms[4..];
    assert ms[2..][1..2][0] == ms[3];
    PairedUnit(ms[1..]);
    assert ms[1..][1..] == ms[2..];
    PairedUnit(ms);
  }

  lemma {:induction false} UsersPaired(ms: seq<Message>)
    requires forall i :: 0 <= i < |ms| ==> ms[i].User?
    ensures WellPaired(ms)
    decreases |ms|
  {
    if ms != [] { UsersPaired(ms[1..]); }
  }

  lemma TruncationKeepsPairing(ms: seq<Message>)
    ensures WellPaired(TruncateAll(ms)) == WellPaired(ms)
  {
    forall i | 0 <= i < |ms| ensures Skeleton(TruncateAll(ms)[i]) == Skeleton(ms[i]) {
      TruncationShrinks(ms[i]);
    }
    PairingIgnoresContent(TruncateAll(ms), ms);
  }

  predicate CutsSafeAt(ms: seq<Message>, h: nat, t: nat) {
    && (h < |ms| ==> !ms[h].Tool?)
    && (t < |ms| && ms[t].Tool? ==>
          ms[t].callId != "" && (t + 1 < |ms| ==> !ms[t + 1].Tool?))
  }

  lemma RebuiltPairing(out: seq<Message>, ms: seq<Message>, h: nat, t: nat, summary: Message)
    requires WellPaired(ms) && Rebuilt(out, TruncateAll(ms), h, t, summary)
    ensures WellPaired(out) <==> CutsSafeAt(ms, h, t)
  {
    var cut := TruncateAll(ms);
    TruncationKeepsPairing(ms);
    assert forall i :: 0 <= i < |ms| ==> cut[i].Tool? == ms[i].Tool? && (ms[i].Tool? ==> cut[i].callId == ms[i].callId);
    PairedCut(cut, h);
    TailPairing(cut, t);
    SplicePairing(cut[..h], [summary], CoalesceTail(cut[t..]));
  }

  lemma SplicePairing(a: seq<Message>, s: seq<Message>, b: seq<Message>)
    requires |s| == 1 && s[0].System? && (b == [] || !b[0].Tool?)
    ensures WellPaired((a + s) + b) <==> WellPaired(a) && WellPaired(b)
  {
    var whole := (a + s) + b;
    assert WellPaired(s) by { assert s[1..] == []; }
    if WellPaired(a) && WellPaired(b) {
      PairedConcat(a, s);
      PairedConcat(a + s, b);
    }
    if WellPaired(whole) {
      PairedCut(whole, |a|);
      PairedCut(whole, |a| + 1);
      assert whole[..|a|] == a;
      assert whole[|a| + 1..] == b;
    }
  }

  lemma TailPairing(ms: seq<Message>, t: nat)
    requires WellPaired(ms) && t <= |ms|
    ensures WellPaired(CoalesceTail(ms[t..])) <==>
            (t < |ms| && ms[t].Tool? ==>
               ms[t].callId != "" && (t + 1 < |ms| ==> !ms[t + 1].Tool?))
  {
    if t < |ms| && ms[t].Tool? {
      PairedCut(ms, t + 1);
      ToolTail(ms, t);
    } else {
      PlainTail(ms, t);
    }
  }

  lemma PlainTail(ms: seq<Message>, t: nat)
    requires WellPaired(ms) && t <= |ms| && !(t < |ms| && ms[t].Tool?)
    ensures WellPaired(CoalesceTail(ms[t..]))
  {
    PairedCut(ms, t);
    assert CoalesceTail(ms[t..]) == ms[t..];
  }

  lemma ToolTail(ms: seq<Message>, t: nat)
    requires t < |ms| && ms[t].Tool?
    ensures WellPaired(CoalesceTail(ms[t..])) <==> ms[t].callId != "" && WellPaired(ms[t + 1..])
  {
    StubUnit(ms[t], ms[t + 1..]);
    assert ms[t..] == [ms[t]] + ms[t + 1..];
  }

  lemma StubUnit(first: Message, rest: seq<Message>)
    requires first.Tool?
    ensures WellPaired(CoalesceTail([first] + rest)) <==> first.callId != "" && WellPaired(rest)
  {
    var tail := [Stub(first)] + ([first] + rest);
    PairedUnit(tail);
    assert tail[1..2] == [first];
    assert tail[2..] == rest;
    var calls := Stub(first).calls;
    assert first.callId == "" ==> |calls[0].id| >= 10;
    assert Answers(calls, [first]) <==> first.callId != "";
  }

  // ---------- many rounds ----------

  /** One compaction as the engine runs it: history grew by `grown` since the last one. */
  datatype Round = Round(grown: seq<Message>, userText: string, window: int, summarize: Summarizer, force: bool)

  function AfterRound(ms: seq<Message>, r: Round, policy: Policy): seq<Message> {
    Compact(ms + r.grown, r.userText, r.window, r.summarize, policy, r.force).messages
  }

  predicate Follows(ms: seq<Message>, r: Round, next: seq<Message>, policy: Policy) {
    next == AfterRound(ms, r, policy)
  }

  /** The histories before, between and after some rounds. */
  ghost predicate IsRun(hs: seq<seq<Message>>, rounds: seq<Round>, policy: Policy) {
    && |hs| == |rounds| + 1
    && forall j :: 0 <= j < |rounds| ==> Follows(hs[j], rounds[j], hs[j + 1], policy)
  }

  /** Every history and every sequence of rounds has its run. */
  lemma {:induction false} RunExists(ms: seq<Message>, rounds: seq<Round>, policy: Policy) returns (hs: seq<seq<Message>>)
    ensures IsRun(hs, rounds, policy) && hs[0] == ms
    decreases |rounds|
  {
    if rounds == [] {
      hs := [ms];
    } else {
      var n := |rounds| - 1;
      var before := RunExists(ms, rounds[..n], policy);
      hs := before + [AfterRound(before[n], rounds[n], policy)];
      forall j | 0 <= j < |rounds| ensures Follows(hs[j], rounds[j], hs[j + 1], policy) {
        if j < n { assert Follows(before[j], rounds[..n][j], before[j + 1], policy); }
      }
    }
  }

  function TruncateTimes(m: Message, n: nat): Message {
    if n == 0 then m else Truncate(TruncateTimes(m, n - 1))
  }

  /** The system prefix and the first `keepHead` messages after it. */
  predicate Anchored(ms: seq<Message>, k: nat, keepHead: int) {
    k <= |ms| && k <= SystemEnd(ms) + Max(0, keepHead)
  }

  lemma CompactKeepsAnchor(ms: seq<Message>, r: Round, policy: Policy, k: nat)
    requires Anchored(ms, k, policy.keepHead)
    ensures var out := AfterRound(ms, r, policy);
            && Anchored(out, k, policy.keepHead)
            && out[..k] == TruncateAll(ms)[..k]
  {
    var all := ms + r.grown;
    var cut := TruncateAll(all);
    TruncationKeepsCuts(all, policy.keepHead, policy.keepTail);
    assert cut[..k] == TruncateAll(ms)[..k];
    if Compact(all, r.userText, r.window, r.summarize, policy, r.force).fired {
      var h, t, summary := FiredForm(all, r.userText, r.window, r.summarize, policy, r.force);
      RebuiltAnchor(Compact(all, r.userText, r.window, r.summarize, policy, r.force).messages, cut, h, t, summary);
    }
  }

  lemma RebuiltAnchor(out: seq<Message>, cut: seq<Message>, h: nat, t: nat, summary: Message)
    requires Rebuilt(out, cut, h, t, summary) && SystemEnd(cut) <= h
    ensures |out| >= h && forall k :: 0 <= k <= h ==> out[..k] == cut[..k]
    ensures SystemEnd(cut) <= SystemEnd(out)
  {
    RebuiltShape(out, cut, h, t, summary);
    forall k | 0 <= k <= h ensures out[..k] == cut[..k] {
      assert out[..k] == out[..h][..k] == cut[..h][..k];
    }
    var s := SystemEnd(cut);
    assert out[..s] == cut[..s];
  }

  /**
   * Whatever is appended in between and whatever the summariser answers, the system prefix and
   * the first `keepHead` messages after it survive any number of compactions; only oversized
   * tool outputs among them shrink.
   */
  lemma {:induction false} AnchorSurvivesEveryRound(hs: seq<seq<Message>>, rounds: seq<Round>, policy: Policy, k: nat, n: nat)
    requires IsRun(hs, rounds, policy) && Anchored(hs[0], k, policy.keepHead) && n <= |rounds|
    ensures Anchored(hs[n], k, policy.keepHead)
    ensures forall i :: 0 <= i < k ==> hs[n][i] == TruncateTimes(hs[0][i], n)
    decreases n
  {
    if n > 0 {
      AnchorSurvivesEveryRound(hs, rounds, policy, k, n - 1);
      assert Follows(hs[n - 1], rounds[n - 1], hs[n], policy);
      CompactKeepsAnchor(hs[n - 1], rounds[n - 1], policy, k);
      OneRoundMore(hs[0], hs[n - 1], hs[n], n, k);
    }
  }

  lemma OneRoundMore(ms: seq<Message>, before: seq<Message>, after: seq<Message>, n: nat, k: nat)
    requires k <= |ms| && k <= |before| && k <= |after| && n > 0 && after[..k] == TruncateAll(before)[..k]
    requires forall i :: 0 <= i < k ==> before[i] == TruncateTimes(ms[i], n - 1)
    ensures forall i :: 0 <= i < k ==> after[i] == TruncateTimes(ms[i], n)
  {
    forall i | 0 <= i < k ensures after[i] == TruncateTimes(ms[i], n) {
      assert after[i] == after[..k][i] == Truncate(before[i]);
    }
  }

  // ---------- size of a fired result ----------

  /** Estimated cost of the stub, when one is put in: its size follows the tool's name. */
  function StubTokens(tail: seq<Message>): nat {
    if tail == [] || !tail[0].Tool? then 0 else MessageTokens(Stub(tail[0]))
  }

  /**
   * When what stays leaves room for 800 tokens under the target, and the summariser keeps to the budget it
   * is told, the result is at most the target plus six tokens of header plus the stub.
   */
  lemma FiredSizeBound(ms: seq<Message>, userText: string, window: int, summarize: Summarizer,
                       policy: Policy, force: bool)
    requires Fires(ms, userText, window, summarize, policy, force)
    requires Target(window, policy) - Staying(ms, userText, policy) >= 800
    requires var budget := Budget(ms, userText, window, policy);
             EstimateTokens(JStr(Strip(summarize(Middle(ms, policy), budget).value))) <= budget
    ensures Compact(ms, userText, window, summarize, policy, force).after
            <= Target(window, policy) + 6 + StubTokens(TruncateAll(ms)[MiddleTo(ms, policy)..])
  {
    FiredCosts(ms, userText, window, summarize, policy, force);
    MiddleReplacedCosts(ms, userText, policy, Strip(summarize(Middle(ms, policy), Budget(ms, userText, window, policy)).value));
    BudgetWithRoom(ms, userText, window, policy);
  }

  lemma BudgetWithRoom(ms: seq<Message>, userText: string, window: int, policy: Policy)
    requires HasMiddle(ms, policy) && Target(window, policy) - Staying(ms, userText, policy) >= 800
    ensures Budget(ms, userText, window, policy) + Staying(ms, userText, policy) == Target(window, policy)
  {
  }

  /** What is left costs what the rebuilt pieces cost. */
  lemma FiredCosts(ms: seq<Message>, userText: string, window: int, summarize: Summarizer, policy: Policy, force: bool)
    requires Fires(ms, userText, window, summarize, policy, force)
    ensures Compact(ms, userText, window, summarize, policy, force).after
            == TotalTokens(Splice(Split(TruncateAll(ms), policy.keepHead, policy.keepTail),
                                  Strip(summarize(Middle(ms, policy), Budget(ms, userText, window, policy)).value)))
  {
    FiresExactly(ms, userText, window, summarize, policy, force);
    AnswerIsUsed(ms, userText, window, summarize, policy);
    FiredMessages(ms, userText, window, summarize, policy, force);
    Reported(ms, userText, window, summarize, policy, force);
  }

  lemma MiddleReplacedCosts(ms: seq<Message>, userText: string, policy: Policy, text: string)
    requires HasMiddle(ms, policy)
    ensures TotalTokens(Splice(Split(TruncateAll(ms), policy.keepHead, policy.keepTail), text))
            <= Staying(ms, userText, policy) + EstimateTokens(JStr(text)) + 6
               + StubTokens(TruncateAll(ms)[MiddleTo(ms, policy)..])
  {
    PiecesThatStay(ms, userText, policy);
    SpliceCosts(Split(TruncateAll(ms), policy.keepHead, policy.keepTail), text);
  }

  /** What the rebuilt history costs: the pieces kept, the header and the text, and the stub. */
  lemma SpliceCosts(p: Pieces, text: string)
    ensures TotalTokens(Splice(p, text)) <= TotalTokens(p.prefix) + TotalTokens(p.head) + TotalTokens(p.tail)
                                            + EstimateTokens(JStr(text)) + 6 + StubTokens(p.tail) + 1
  {
    var summary := [System(JStr(SUMMARY_HEADER + text))];
    TotalTokensConcat(p.prefix + p.head + summary, CoalesceTail(p.tail));
    TotalTokensConcat(p.prefix + p.head, summary);
    TotalTokensConcat(p.prefix, p.head);
    if p.tail != [] && p.tail[0].Tool? {
      TotalTokensConcat([Stub(p.tail[0])], p.tail);
    }
    assert |SUMMARY_HEADER| == 25;
  }

  /** The stub's size is not constant: it is two tokens exactly for names under eight characters. */
  lemma StubCost(first: Message)
    requires first.Tool?
    ensures MessageTokens(Stub(first)) == 1 + Max(1, |Stub(first).calls[0].name| / CHARS_PER_TOKEN)
    ensures MessageTokens(Stub(first)) == 2 <==> |first.name| < 8
  {
    var calls := Stub(first).calls;
    assert calls[..0] == [];
    assert EstimateCalls(calls[..0]) == 0;
    assert |"{}"| == 2;
  }

  const ELIDED := "\n\n[... "
  const ELIDED_REST := " chars elided to fit the summarizer window ...]\n\n"

  function ClipMarker(dropped: nat): string {
    ELIDED + Decimal(dropped) + ELIDED_REST
  }

  /** `clip_transcript` */
  function ClipTranscript(transcript: string, budgetTokens: int): string {
    var maxChars := Max(500, budgetTokens) * CHARS_PER_TOKEN;
    if |transcript| <= maxChars then transcript
    else
      var head := maxChars / 4;
      var tail := maxChars - head;
      transcript[..head] + ClipMarker(|transcript| - head - tail) + transcript[|transcript| - tail..]
  }

  /**
   * A clipped transcript keeps the first quarter and the last three quarters of what fits, runs
   * over the budget by the marker alone, and is shorter than the original exactly when more was
   * dropped than the marker takes.
   */
  lemma ClipFits(transcript: string, budgetTokens: int)
    ensures var fits := Max(500, budgetTokens) * CHARS_PER_TOKEN;
            var out := ClipTranscript(transcript, budgetTokens);
            if |transcript| <= fits then out == transcript
            else
              var dropped := |transcript| - fits;
              && |out| == fits + |ClipMarker(dropped)|
              && out[..fits / 4] == transcript[..fits / 4]
              && out[|out| - (fits - fits / 4)..] == transcript[|transcript| - (fits - fits / 4)..]
              && (|out| < |transcript| <==> |ClipMarker(dropped)| < dropped)
  {
  }
}
