/** Chat messages and the pairing rule providers impose on tool calls. */
module Messages {

  /** A decoded JSON value, as far as the token estimate looks into it. */
  datatype Json =
    | JNull
    | JStr(s: string)
    | JList(items: seq<Json>)
    | JDict(values: seq<Json>)
    | JOther(rendered: string)

  datatype Call = Call(id: string, name: string, arguments: string)

  datatype Message =
    | System(content: Json)
    | User(content: Json)
    | Assistant(content: Json, calls: seq<Call>)
    | Tool(callId: string, name: string, content: Json)

  /** Everything of a message that tool-output truncation leaves alone. */
  function Skeleton(m: Message): Message {
    match m
    case Tool(id, name, _) => Tool(id, name, JNull)
    case _ => m
  }

  /** Replies `rs` answer `calls` one for one, in call order. */
  predicate Answers(calls: seq<Call>, rs: seq<Message>) {
    && |calls| == |rs|
    && forall i :: 0 <= i < |rs| ==> rs[i].Tool? && rs[i].callId == calls[i].id
  }

  /**
   * Every assistant message is followed immediately by exactly one reply per tool call,
   * in call order, and no reply stands anywhere else.
   */
  predicate WellPaired(ms: seq<Message>)
    decreases |ms|
  {
    if ms == [] then true
    else if ms[0].Tool? then false
    else if ms[0].Assistant? then
      var n := |ms[0].calls|;
      n < |ms| && Answers(ms[0].calls, ms[1..n + 1]) && WellPaired(ms[n + 1..])
    else WellPaired(ms[1..])
  }

  /** Length of the leading unit: one message, with the replies it is owed. */
  function UnitLength(m: Message): nat {
    if m.Assistant? then |m.calls| + 1 else 1
  }

  lemma PairedUnit(ms: seq<Message>)
    requires ms != []
    ensures WellPaired(ms) <==>
            && !ms[0].Tool?
            && UnitLength(ms[0]) <= |ms|
            && (ms[0].Assistant? ==> Answers(ms[0].calls, ms[1..UnitLength(ms[0])]))
            && WellPaired(ms[UnitLength(ms[0])..])
  {
  }

  lemma {:induction false} PairedConcat(a: seq<Message>, b: seq<Message>)
    requires WellPaired(a) && WellPaired(b)
    ensures WellPaired(a + b)
    decreases |a|
  {
    if a == [] {
      assert a + b == b;
    } else {
      var n := UnitLength(a[0]);
      PairedUnit(a);
      PairedConcat(a[n..], b);
      assert (a + b)[n..] == a[n..] + b;
      assert (a + b)[1..n] == a[1..n];
      PairedUnit(a + b);
    }
  }

  /** A paired history may be cut before any message that is not a reply, and only there. */
  lemma {:induction false} PairedCut(ms: seq<Message>, i: nat)
    requires WellPaired(ms) && i <= |ms|
    ensures (i == |ms| || !ms[i].Tool?) ==> WellPaired(ms[..i]) && WellPaired(ms[i..])
    ensures i < |ms| && ms[i].Tool? ==> !WellPaired(ms[..i]) && !WellPaired(ms[i..])
    decreases |ms|
  {
    if i == 0 {
      assert ms[..0] == [] && ms[0..] == ms;
    } else {
      var n := UnitLength(ms[0]);
      PairedUnit(ms);
      PairedUnit(ms[..i]);
      if i < n {
        assert ms[i] == ms[1..n][i - 1];
        assert ms[i].Tool?;
        assert ms[i..][0].Tool?;
      } else {
        PairedCut(ms[n..], i - n);
        assert ms[n..][i - n..] == ms[i..];
        assert ms[..i][n..] == ms[n..][..i - n];
        assert ms[..i][1..n] == ms[1..n];
        if i < |ms| {
          assert ms[n..][i - n] == ms[i];
        }
      }
    }
  }

  /** Pairing looks at skeletons only. */
  lemma {:induction false} PairingIgnoresContent(a: seq<Message>, b: seq<Message>)
    requires |a| == |b| && forall i :: 0 <= i < |a| ==> Skeleton(a[i]) == Skeleton(b[i])
    ensures WellPaired(a) == WellPaired(b)
    decreases |a|
  {
    if a != [] {
      assert Skeleton(a[0]) == Skeleton(b[0]);
      var n := UnitLength(a[0]);
      PairedUnit(a);
      PairedUnit(b);
      if n <= |a| {
        PairingIgnoresContent(a[n..], b[n..]);
        forall i | 0 <= i < n - 1
          ensures a[1..n][i].Tool? == b[1..n][i].Tool?
          ensures a[1..n][i].Tool? ==> a[1..n][i].callId == b[1..n][i].callId
        {
          assert Skeleton(a[i + 1]) == Skeleton(b[i + 1]);
        }
      }
    }
  }
}
