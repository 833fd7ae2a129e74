/** Request-shape diagnostics: windowed comparison of message histories, and the shape store. */
module PrefixDiag {
  import opened Common

  const MSG_WINDOW := 64
  const MAX_AFFINITIES := 20

  // ---------- shapes ----------

  /** Hashes of one request; `msgHashes` covers the last messages after the system slot. */
  datatype Shape<H> = Shape(model: string, params: H, tools: H, system: Option<H>, msgCount: nat, msgHashes: seq<H>)

  datatype Reason = FirstContact | Unchanged | ModelChanged | ParamsChanged | ToolsChanged | SystemChanged | HistoryRewrite

  function Hashes<M, H>(h: M -> H, ms: seq<M>): (r: seq<H>)
    ensures |r| == |ms| && forall i :: 0 <= i < |ms| ==> r[i] == h(ms[i])
  {
    if ms == [] then [] else Hashes(h, ms[..|ms| - 1]) + [h(ms[|ms| - 1])]
  }

  /** The messages after the system slot. */
  function Body<M>(messages: seq<M>): seq<M> {
    if messages == [] then [] else messages[1..]
  }

  /** `body[-n:]` */
  function Last<T>(s: seq<T>, n: nat): seq<T> {
    if |s| <= n then s else s[|s| - n..]
  }

  /** `capture` */
  function Capture<M, H>(h: M -> H, model: string, params: H, tools: H, messages: seq<M>): Shape<H> {
    Shape(model, params, tools, if messages == [] then None else Some(h(messages[0])),
          |Body(messages)|, Hashes(h, Last(Body(messages), MSG_WINDOW)))
  }

  function WindowStart<H>(s: Shape<H>): int { s.msgCount - |s.msgHashes| }

  /** `s[i:]`, which Python clamps. */
  function From<T>(s: seq<T>, i: nat): seq<T> { if i <= |s| then s[i..] else [] }

  /** `s[i:i + n]`, clamped likewise. */
  function Slice<T>(s: seq<T>, i: nat, n: nat): seq<T> {
    if n <= |From(s, i)| then From(s, i)[..n] else From(s, i)
  }

  function PrevSlice<H>(prev: Shape<H>, cur: Shape<H>): seq<H> {
    From(prev.msgHashes, Max(WindowStart(prev), WindowStart(cur)) - WindowStart(prev))
  }

  function CurSlice<H>(prev: Shape<H>, cur: Shape<H>): seq<H> {
    Slice(cur.msgHashes, Max(WindowStart(prev), WindowStart(cur)) - WindowStart(cur), |PrevSlice(prev, cur)|)
  }

  /** `compare` */
  function Compare<H(==)>(prev: Option<Shape<H>>, cur: Shape<H>): seq<Reason> {
    match prev
    case None => [FirstContact]
    case Some(p) =>
      var reasons :=
        (if cur.model != p.model then [ModelChanged] else [])
        + (if cur.params != p.params then [ParamsChanged] else [])
        + (if cur.tools != p.tools then [ToolsChanged] else [])
        + (if cur.system != p.system then [SystemChanged] else [])
        + (if cur.msgCount < p.msgCount || (PrevSlice(p, cur) != [] && CurSlice(p, cur) != PrevSlice(p, cur))
           then [HistoryRewrite] else []);
      if reasons == [] then [Unchanged] else reasons
  }

  predicate AgreeBelow<H(==)>(a: seq<H>, b: seq<H>, n: int) {
    forall i :: 0 <= i < n && i < |a| && i < |b| ==> a[i] == b[i]
  }

  /** `r` is the first position, counted from `start`, at which the two sequences differ; none when they do not. */
  predicate FirstAt<H(==)>(a: seq<H>, b: seq<H>, start: nat, r: Option<nat>) {
    match r
    case None => AgreeBelow(a, b, |a|)
    case Some(k) => 0 <= k - start < |a| && k - start < |b| && a[k - start] != b[k - start] && AgreeBelow(a, b, k - start)
  }

  /** `first_divergence`: the absolute index, the system slot being 0. */
  method FirstDivergence<H(==)>(prev: Shape<H>, cur: Shape<H>) returns (r: Option<nat>)
    requires |prev.msgHashes| <= prev.msgCount && |cur.msgHashes| <= cur.msgCount
    ensures FirstAt(PrevSlice(prev, cur), CurSlice(prev, cur), Max(WindowStart(prev), WindowStart(cur)) + 1, r)
  {
    var start := Max(WindowStart(prev), WindowStart(cur));
    var i := FirstDifference(PrevSlice(prev, cur), CurSlice(prev, cur));
    r := if i.None? then None else Some(start + i.value + 1);
  }

  /** The loop over the two slices side by side. */
  method FirstDifference<H(==)>(a: seq<H>, b: seq<H>) returns (r: Option<nat>)
    ensures match r
            case None => forall i :: 0 <= i < |a| && i < |b| ==> a[i] == b[i]
            case Some(i) => i < |a| && i < |b| && a[i] != b[i] && forall j :: 0 <= j < i ==> a[j] == b[j]
  {
    var i := 0;
    while i < |a| && i < |b|
      invariant 0 <= i <= |a| && i <= |b|
      invariant forall j :: 0 <= j < i ==> a[j] == b[j]
    {
      if a[i] != b[i] {
        return Some(i);
      }
      i := i + 1;
    }
    r := None;
  }

  // ---------- what the window sees of two histories ----------

  /** First message index, in the body, that both windows of these lengths cover. */
  function CommonStart(n: nat, m: nat): nat {
    Max(0, Max(n - MSG_WINDOW, m - MSG_WINDOW))
  }

  /** A difference both windows show. */
  predicate VisibleDifference<M, H(==)>(h: M -> H, a: seq<M>, b: seq<M>, i: int) {
    CommonStart(|a|, |b|) <= i < |a| && i < |b| && h(a[i]) != h(b[i])
  }

  ghost predicate Rewritten<M(!new), H>(h: M -> H, a: seq<M>, b: seq<M>) {
    |b| < |a| || exists i :: VisibleDifference(h, a, b, i)
  }

  lemma FromLast<T>(s: seq<T>, n: nat, i: nat)
    requires i >= |s| - n
    ensures i - (|s| - |Last(s, n)|) >= 0 && From(Last(s, n), i - (|s| - |Last(s, n)|)) == From(s, i)
  {
  }

  lemma HashesFrom<M, H>(h: M -> H, s: seq<M>, i: nat)
    ensures From(Hashes(h, s), i) == Hashes(h, From(s, i))
  {
  }

  lemma HashesTake<M, H>(h: M -> H, s: seq<M>, n: nat)
    requires n <= |s|
    ensures Hashes(h, s)[..n] == Hashes(h, s[..n])
  {
  }

  /** A shape taken of a history with this body. */
  predicate Covers<M, H(==)>(h: M -> H, s: Shape<H>, body: seq<M>) {
    s.msgCount == |body| && s.msgHashes == Hashes(h, Last(body, MSG_WINDOW))
  }

  lemma StartOf<M, H>(h: M -> H, s: Shape<H>, body: seq<M>)
    requires Covers(h, s, body)
    ensures WindowStart(s) == Max(0, |body| - MSG_WINDOW) && |s.msgHashes| <= s.msgCount
  {
  }

  /** The slices `compare` looks at are the hashes of the messages both windows cover. */
  lemma PrevSliceIs<M, H>(h: M -> H, p: Shape<H>, c: Shape<H>, a: seq<M>, b: seq<M>)
    requires Covers(h, p, a) && Covers(h, c, b)
    ensures Max(WindowStart(p), WindowStart(c)) == CommonStart(|a|, |b|)
    ensures PrevSlice(p, c) == Hashes(h, From(a, CommonStart(|a|, |b|)))
  {
    StartOf(h, p, a);
    StartOf(h, c, b);
    var start := CommonStart(|a|, |b|);
    FromLast(a, MSG_WINDOW, start);
    HashesFrom(h, Last(a, MSG_WINDOW), start - WindowStart(p));
  }

  lemma CurSliceIs<M, H>(h: M -> H, p: Shape<H>, c: Shape<H>, a: seq<M>, b: seq<M>)
    requires Covers(h, p, a) && Covers(h, c, b) && |a| <= |b|
    ensures |From(a, CommonStart(|a|, |b|))| <= |From(b, CommonStart(|a|, |b|))|
    ensures CurSlice(p, c) == Hashes(h, From(b, CommonStart(|a|, |b|))[..|From(a, CommonStart(|a|, |b|))|])
  {
    PrevSliceIs(h, p, c, a, b);
    StartOf(h, c, b);
    var start := CommonStart(|a|, |b|);
    FromLast(b, MSG_WINDOW, start);
    HashesFrom(h, Last(b, MSG_WINDOW), start - WindowStart(c));
    SliceOfHashes(h, c.msgHashes, start - WindowStart(c), From(b, start), |From(a, start)|);
  }

  lemma SliceOfHashes<M, H>(h: M -> H, hs: seq<H>, i: nat, ms: seq<M>, n: nat)
    requires From(hs, i) == Hashes(h, ms) && n <= |ms|
    ensures Slice(hs, i, n) == Hashes(h, ms[..n])
  {
    HashesTake(h, ms, n);
  }

  /** The slices differ exactly where the window shows a difference. */
  lemma SlicesDiffer<M(!new), H>(h: M -> H, a: seq<M>, b: seq<M>, u: seq<M>, v: seq<M>)
    requires |a| <= |b| && u == From(a, CommonStart(|a|, |b|)) && |u| <= |From(b, CommonStart(|a|, |b|))|
    requires v == From(b, CommonStart(|a|, |b|))[..|u|]
    ensures Hashes(h, u) != Hashes(h, v) <==> exists i :: VisibleDifference(h, a, b, i)
  {
    var start := CommonStart(|a|, |b|);
    if Hashes(h, u) != Hashes(h, v) {
      var i :| 0 <= i < |u| && Hashes(h, u)[i] != Hashes(h, v)[i];
      SliceAt(h, a, b, u, v, start + i);
      assert VisibleDifference(h, a, b, start + i);
    }
    if i :| VisibleDifference(h, a, b, i) {
      SliceAt(h, a, b, u, v, i);
    }
  }

  lemma SliceAt<M, H>(h: M -> H, a: seq<M>, b: seq<M>, u: seq<M>, v: seq<M>, i: nat)
    requires |a| <= |b| && u == From(a, CommonStart(|a|, |b|)) && |u| <= |From(b, CommonStart(|a|, |b|))|
    requires v == From(b, CommonStart(|a|, |b|))[..|u|]
    requires CommonStart(|a|, |b|) <= i < |a|
    ensures i - CommonStart(|a|, |b|) < |u| == |v|
    ensures Hashes(h, u)[i - CommonStart(|a|, |b|)] == h(a[i]) && Hashes(h, v)[i - CommonStart(|a|, |b|)] == h(b[i])
  {
  }

  lemma RewriteReason<H>(p: Shape<H>, c: Shape<H>)
    ensures HistoryRewrite in Compare(Some(p), c)
            <==> c.msgCount < p.msgCount || (PrevSlice(p, c) != [] && CurSlice(p, c) != PrevSlice(p, c))
  {
  }

  /** `compare` reports a rewrite exactly when the history shrank or both windows show a difference. */
  lemma RewriteReported<M(!new), H>(h: M -> H, p: Shape<H>, c: Shape<H>, a: seq<M>, b: seq<M>)
    requires Covers(h, p, a) && Covers(h, c, b)
    ensures HistoryRewrite in Compare(Some(p), c) <==> Rewritten(h, a, b)
  {
    RewriteReason(p, c);
    if |a| <= |b| {
      var u, v := SlicesOf(h, p, c, a, b);
    }
  }

  lemma SlicesOf<M(!new), H>(h: M -> H, p: Shape<H>, c: Shape<H>, a: seq<M>, b: seq<M>) returns (u: seq<M>, v: seq<M>)
    requires Covers(h, p, a) && Covers(h, c, b) && |a| <= |b|
    ensures PrevSlice(p, c) == Hashes(h, u) && CurSlice(p, c) == Hashes(h, v)
    ensures Max(WindowStart(p), WindowStart(c)) == CommonStart(|a|, |b|)
    ensures u == From(a, CommonStart(|a|, |b|)) && |v| == |u| && v <= From(b, CommonStart(|a|, |b|))
    ensures Hashes(h, u) != Hashes(h, v) <==> exists i :: VisibleDifference(h, a, b, i)
  {
    PrevSliceIs(h, p, c, a, b);
    CurSliceIs(h, p, c, a, b);
    u := From(a, CommonStart(|a|, |b|));
    v := From(b, CommonStart(|a|, |b|))[..|u|];
    SlicesDiffer(h, a, b, u, v);
  }

  /** Nothing is reported exactly when the rest of the request is the same and no rewrite is seen. */
  lemma SilentWhenUnchanged<M(!new), H>(h: M -> H, p: Shape<H>, c: Shape<H>, a: seq<M>, b: seq<M>)
    requires Covers(h, p, a) && Covers(h, c, b)
    ensures Compare(Some(p), c) == [Unchanged]
            <==> p.model == c.model && p.params == c.params && p.tools == c.tools && p.system == c.system && !Rewritten(h, a, b)
  {
    RewriteReported(h, p, c, a, b);
    ReasonsNameChanges(p, c);
  }

  lemma ReasonsNameChanges<H>(p: Shape<H>, c: Shape<H>)
    ensures Compare(Some(p), c) == [Unchanged] <==>
            p.model == c.model && p.params == c.params && p.tools == c.tools && p.system == c.system
            && HistoryRewrite !in Compare(Some(p), c)
  {
    var r := Compare(Some(p), c);
    assert p.model != c.model ==> r[0] == ModelChanged;
    assert p.model == c.model && p.params != c.params ==> r[0] == ParamsChanged;
    assert p.model == c.model && p.params == c.params && p.tools != c.tools ==> r[0] == ToolsChanged;
    assert p.model == c.model && p.params == c.params && p.tools == c.tools && p.system != c.system ==> r[0] == SystemChanged;
  }

  // ---------- requests ----------

  /** A request as the diagnostics see it. */
  datatype Request<M, H> = Request(model: string, params: H, tools: H, messages: seq<M>)

  function ShapeOf<M, H>(h: M -> H, r: Request<M, H>): Shape<H> {
    Capture(h, r.model, r.params, r.tools, r.messages)
  }

  /** The shape of a request covers its messages after the first. */
  lemma CaptureCovers<M, H>(h: M -> H, r: Request<M, H>)
    ensures Covers(h, ShapeOf(h, r), Body(r.messages))
  {
  }

  /** A message within the last 64 of both histories, and not the first, that is no longer the same. */
  predicate Changed<M, H(==)>(h: M -> H, a: seq<M>, b: seq<M>, i: int) {
    1 <= i < |a| && i < |b| && i >= |a| - 64 && i >= |b| - 64 && h(a[i]) != h(b[i])
  }

  /** The history got shorter, the first message apart, or some message has changed. */
  ghost predicate ShrankOrChanged<M(!new), H>(h: M -> H, a: seq<M>, b: seq<M>) {
    (|b| < |a| && |a| > 1) || exists i :: Changed(h, a, b, i)
  }

  predicate SameFirst<M, H(==)>(h: M -> H, a: seq<M>, b: seq<M>) {
    if |a| == 0 || |b| == 0 then |a| == |b| else h(a[0]) == h(b[0])
  }

  /**
   * What is named when one request follows another: each part of it that differs, and nothing else; the
   * single reason for no difference when none does.
   */
  lemma ReasonsOfRequests<M(!new), H>(h: M -> H, p: Request<M, H>, c: Request<M, H>)
    ensures var r := Compare(Some(ShapeOf(h, p)), ShapeOf(h, c));
            && (ModelChanged in r <==> p.model != c.model)
            && (ParamsChanged in r <==> p.params != c.params)
            && (ToolsChanged in r <==> p.tools != c.tools)
            && (SystemChanged in r <==> !SameFirst(h, p.messages, c.messages))
            && (HistoryRewrite in r <==> ShrankOrChanged(h, p.messages, c.messages))
            && FirstContact !in r
            && (Unchanged in r <==> r == [Unchanged])
            && (r == [Unchanged] <==>
                  && p.model == c.model && p.params == c.params && p.tools == c.tools
                  && SameFirst(h, p.messages, c.messages) && !ShrankOrChanged(h, p.messages, c.messages))
  {
    var s, t := ShapeOf(h, p), ShapeOf(h, c);
    CaptureCovers(h, p);
    CaptureCovers(h, c);
    ReasonsAre(s, t);
    RewriteReported(h, s, t, Body(p.messages), Body(c.messages));
    ChangesAreDifferences(h, p.messages, c.messages);
  }

  /** Each reason stands for one comparison. */
  lemma ReasonsAre<H>(p: Shape<H>, c: Shape<H>)
    ensures var r := Compare(Some(p), c);
            && (ModelChanged in r <==> c.model != p.model) && (ParamsChanged in r <==> c.params != p.params)
            && (ToolsChanged in r <==> c.tools != p.tools) && (SystemChanged in r <==> c.system != p.system)
            && FirstContact !in r && (Unchanged in r <==> r == [Unchanged])
            && (r == [Unchanged] <==>
                  c.model == p.model && c.params == p.params && c.tools == p.tools && c.system == p.system
                  && HistoryRewrite !in r)
  {
    ReasonsNameChanges(p, c);
  }

  /** The difference both windows show, by its place among all messages. */
  lemma ChangesAreDifferences<M(!new), H>(h: M -> H, a: seq<M>, b: seq<M>)
    ensures Rewritten(h, Body(a), Body(b)) <==> ShrankOrChanged(h, a, b)
  {
    if i :| Changed(h, a, b, i) {
      assert VisibleDifference(h, Body(a), Body(b), i - 1);
    }
    if i :| VisibleDifference(h, Body(a), Body(b), i) {
      assert Changed(h, a, b, i + 1);
    }
  }

  /** Appending to the history is never reported as a rewrite, at any length. */
  lemma ExtensionIsNoRewrite<M(!new), H>(h: M -> H, p: Shape<H>, c: Shape<H>, prev: seq<M>, cur: seq<M>)
    requires Covers(h, p, Body(prev)) && Covers(h, c, Body(cur))
    requires prev <= cur
    ensures HistoryRewrite !in Compare(Some(p), c)
  {
    RewriteReported(h, p, c, Body(prev), Body(cur));
    var a, b := Body(prev), Body(cur);
    forall i ensures !VisibleDifference(h, a, b, i) {
      if 0 <= i < |a| {
        assert prev[i + 1] == cur[i + 1];
      }
    }
  }

  /**
   * A rewrite reported without shrinkage: `first_divergence` names a message where the histories
   * differ, and every earlier message both windows cover hashes the same.
   */
  method DivergenceOfRewrite<M(!new), H(==)>(ghost h: M -> H, p: Shape<H>, c: Shape<H>, prev: seq<M>, cur: seq<M>)
    returns (k: nat)
    requires Covers(h, p, Body(prev)) && Covers(h, c, Body(cur))
    requires HistoryRewrite in Compare(Some(p), c) && |prev| <= |cur|
    ensures 1 <= k < |prev| && h(prev[k]) != h(cur[k]) && prev[k] != cur[k]
    ensures forall i :: CommonStart(|Body(prev)|, |Body(cur)|) < i < k ==> h(prev[i]) == h(cur[i])
  {
    RewriteReported(h, p, c, Body(prev), Body(cur));
    StartOf(h, p, Body(prev));
    StartOf(h, c, Body(cur));
    ghost var u, v := SlicesApart(h, p, c, Body(prev), Body(cur));
    k := DivergenceOfSlices(h, p, c, Body(prev), Body(cur), u, v, CommonStart(|Body(prev)|, |Body(cur)|));
    forall i | CommonStart(|Body(prev)|, |Body(cur)|) < i < k ensures h(prev[i]) == h(cur[i]) {
      assert h(Body(prev)[i - 1]) == h(Body(cur)[i - 1]);
    }
  }

  ghost predicate AlikeBetween<M, H>(h: M -> H, a: seq<M>, b: seq<M>, lo: nat, hi: int) {
    forall i :: lo <= i < hi && i < |a| && i < |b| ==> h(a[i]) == h(b[i])
  }

  method DivergenceOfSlices<M, H(==)>(ghost h: M -> H, p: Shape<H>, c: Shape<H>, ghost a: seq<M>, ghost b: seq<M>,
                                      ghost u: seq<M>, ghost v: seq<M>, ghost start: nat) returns (k: nat)
    requires |p.msgHashes| <= p.msgCount && |c.msgHashes| <= c.msgCount
    requires Max(WindowStart(p), WindowStart(c)) == start
    requires PrevSlice(p, c) == Hashes(h, u) && CurSlice(p, c) == Hashes(h, v) && Hashes(h, u) != Hashes(h, v)
    requires u == From(a, start) && |v| == |u| && v <= From(b, start)
    ensures 1 <= k <= |a| && k <= |b| && h(a[k - 1]) != h(b[k - 1])
    ensures AlikeBetween(h, a, b, start, k - 1)
  {
    var r := FirstDivergence(p, c);
    k := DivergenceFound(h, a, b, u, v, PrevSlice(p, c), CurSlice(p, c), start, r);
  }

  /** On a rewrite the slices the windows share hash differently. */
  lemma SlicesApart<M(!new), H>(h: M -> H, p: Shape<H>, c: Shape<H>, a: seq<M>, b: seq<M>) returns (u: seq<M>, v: seq<M>)
    requires Covers(h, p, a) && Covers(h, c, b) && |a| <= |b| && Rewritten(h, a, b)
    ensures PrevSlice(p, c) == Hashes(h, u) && CurSlice(p, c) == Hashes(h, v)
    ensures Max(WindowStart(p), WindowStart(c)) == CommonStart(|a|, |b|)
    ensures u == From(a, CommonStart(|a|, |b|)) && |v| == |u| && v <= From(b, CommonStart(|a|, |b|))
    ensures Hashes(h, u) != Hashes(h, v)
  {
    u, v := SlicesOf(h, p, c, a, b);
  }

  method DivergenceFound<M, H(==)>(ghost h: M -> H, ghost a: seq<M>, ghost b: seq<M>, ghost u: seq<M>, ghost v: seq<M>,
                                   ghost us: seq<H>, ghost vs: seq<H>, ghost start: nat, r: Option<nat>) returns (k: nat)
    requires u == From(a, start) && |v| == |u| && v <= From(b, start)
    requires us == Hashes(h, u) && vs == Hashes(h, v) && us != vs && FirstAt(us, vs, start + 1, r)
    ensures 1 <= k <= |a| && k <= |b| && h(a[k - 1]) != h(b[k - 1])
    ensures AlikeBetween(h, a, b, start, k - 1)
  {
    SomewhereApart(us, vs, start + 1, r);
    k := r.value;
    LeastDifference(h, a, b, u, v, start, k - 1);
  }

  lemma SomewhereApart<H>(u: seq<H>, v: seq<H>, start: nat, r: Option<nat>)
    requires |u| == |v| && u != v && FirstAt(u, v, start, r)
    ensures r.Some?
  {
    assert AgreeBelow(u, v, |u|) ==> u == v;
  }

  lemma LeastDifference<M, H>(h: M -> H, a: seq<M>, b: seq<M>, u: seq<M>, v: seq<M>, start: nat, k: int)
    requires u == From(a, start) && |v| == |u| && v <= From(b, start) && 0 <= k - start < |u|
    requires Hashes(h, u)[k - start] != Hashes(h, v)[k - start] && AgreeBelow(Hashes(h, u), Hashes(h, v), k - start)
    ensures 0 <= k < |a| && k < |b| && h(a[k]) != h(b[k])
    ensures AlikeBetween(h, a, b, start, k)
  {
    HashAt(h, a, u, start, k);
    HashAt(h, b, v, start, k);
    forall i | start <= i < k && i < |a| && i < |b| ensures h(a[i]) == h(b[i]) {
      SameHash(h, a, b, u, v, start, i, k);
    }
  }

  lemma HashAt<M, H>(h: M -> H, s: seq<M>, w: seq<M>, start: nat, i: int)
    requires w <= From(s, start) && start <= i < start + |w|
    ensures i < |s| && Hashes(h, w)[i - start] == h(s[i])
  {
    assert w[i - start] == From(s, start)[i - start];
  }

  lemma SameHash<M, H>(h: M -> H, a: seq<M>, b: seq<M>, u: seq<M>, v: seq<M>, start: nat, i: int, k: int)
    requires u <= From(a, start) && v <= From(b, start) && |u| == |v| && start <= i < k < start + |u|
    requires AgreeBelow(Hashes(h, u), Hashes(h, v), k - start)
    ensures i < |a| && i < |b| && h(a[i]) == h(b[i])
  {
    HashAt(h, a, u, start, i);
    HashAt(h, b, v, start, i);
  }

  /** Silence means the hashes agree wherever both windows look. */
  lemma SilenceMeansAgreement<M(!new), H>(h: M -> H, p: Shape<H>, c: Shape<H>, prev: seq<M>, cur: seq<M>)
    requires Covers(h, p, Body(prev)) && Covers(h, c, Body(cur))
    requires HistoryRewrite !in Compare(Some(p), c)
    ensures |Body(prev)| <= |Body(cur)|
    ensures forall i :: CommonStart(|Body(prev)|, |Body(cur)|) < i < |prev| && i < |cur| ==> h(prev[i]) == h(cur[i])
  {
    RewriteReported(h, p, c, Body(prev), Body(cur));
    var a, b := Body(prev), Body(cur);
    forall i | CommonStart(|a|, |b|) < i < |prev| && i < |cur| ensures h(prev[i]) == h(cur[i]) {
      assert !VisibleDifference(h, a, b, i - 1);
    }
  }

  /**
   * The windowed comparison refines the comparison of whole histories: it never reports a rewrite
   * where the old body is a prefix of the new, and, while both fit the window and hashes do not
   * collide, it reports one whenever it is not.
   */
  lemma WindowRefinesFull<M(!new), H>(h: M -> H, p: Shape<H>, c: Shape<H>, prev: seq<M>, cur: seq<M>)
    requires Covers(h, p, Body(prev)) && Covers(h, c, Body(cur))
    ensures HistoryRewrite in Compare(Some(p), c) ==> !(Body(prev) <= Body(cur))
    ensures |Body(prev)| <= MSG_WINDOW && |Body(cur)| <= MSG_WINDOW && TellsApart(h, Body(prev), Body(cur)) ==>
              (HistoryRewrite in Compare(Some(p), c) <==> !(Body(prev) <= Body(cur)))
  {
    RewriteReported(h, p, c, Body(prev), Body(cur));
    PrefixShowsNothing(h, Body(prev), Body(cur));
    if !(Body(prev) <= Body(cur)) { ChangeShows(h, Body(prev), Body(cur)); }
  }

  /** Where the histories differ, so do the hashes. */
  ghost predicate TellsApart<M, H>(h: M -> H, a: seq<M>, b: seq<M>) {
    forall i :: 0 <= i < |a| && i < |b| && a[i] != b[i] ==> h(a[i]) != h(b[i])
  }

  lemma PrefixShowsNothing<M(!new), H>(h: M -> H, a: seq<M>, b: seq<M>)
    ensures a <= b ==> !Rewritten(h, a, b)
  {
    if a <= b {
      assert forall i :: 0 <= i < |a| ==> a[i] == b[i];
    }
  }

  lemma ChangeShows<M(!new), H>(h: M -> H, a: seq<M>, b: seq<M>)
    requires !(a <= b)
    ensures |a| <= MSG_WINDOW && |b| <= MSG_WINDOW && TellsApart(h, a, b) ==> Rewritten(h, a, b)
  {
    if |a| <= |b| {
      var i :| 0 <= i < |a| && a[i] != b[i];
      assert CommonStart(|a|, |b|) <= i && h(a[i]) != h(b[i]) ==> VisibleDifference(h, a, b, i);
    }
  }

  // ---------- the shape store ----------

  /** The stored dictionary in insertion order. */
  type Store<V> = seq<(string, V)>

  function Without<V>(s: Store<V>, key: string): Store<V> {
    if s == [] then []
    else Without(s[..|s| - 1], key) + if s[|s| - 1].0 == key then [] else [s[|s| - 1]]
  }

  /** Re-inserted at the end. */
  function Put<V>(s: Store<V>, key: string, v: V): Store<V> {
    Without(s, key) + [(key, v)]
  }

  /** `save_shape`, on the decoded dictionary. */
  method SaveShape<V>(s: Store<V>, key: string, v: V) returns (r: Store<V>)
    ensures r == Last(Put(s, key, v), 20)
    ensures |r| <= 20 && r != [] && r[|r| - 1] == (key, v)
  {
    r := Put(s, key, v);
    ghost var full := r;
    while |r| > MAX_AFFINITIES
      invariant |full| >= |r| >= 1 && r == full[|full| - |r|..]
      invariant |r| < |full| ==> |r| >= MAX_AFFINITIES
    {
      r := r[1..];
    }
  }

  predicate DistinctKeys<V>(s: Store<V>) {
    forall i, j :: 0 <= i < j < |s| ==> s[i].0 != s[j].0
  }

  /** Every write kept, in order of last write: what the store would be without eviction. */
  function AllWrites<V>(ws: seq<(string, V)>): Store<V> {
    if ws == [] then [] else Put(AllWrites(ws[..|ws| - 1]), ws[|ws| - 1].0, ws[|ws| - 1].1)
  }

  /** The store after a run of saves from an empty file. */
  function StoreAfter<V>(ws: seq<(string, V)>): Store<V> {
    if ws == [] then [] else Last(Put(StoreAfter(ws[..|ws| - 1]), ws[|ws| - 1].0, ws[|ws| - 1].1), MAX_AFFINITIES)
  }

  lemma {:induction false} WithoutConcat<V>(s: Store<V>, t: Store<V>, key: string)
    ensures Without(s + t, key) == Without(s, key) + Without(t, key)
    decreases |t|
  {
    if t == [] {
      assert s + t == s;
    } else {
      assert (s + t)[..|s + t| - 1] == s + t[..|t| - 1];
      WithoutConcat(s, t[..|t| - 1], key);
    }
  }

  lemma {:induction false} WithoutKeys<V>(s: Store<V>, key: string, e: (string, V))
    ensures e in Without(s, key) <==> e in s && e.0 != key
    decreases |s|
  {
    if s != [] {
      WithoutKeys(s[..|s| - 1], key, e);
      assert s == s[..|s| - 1] + [s[|s| - 1]];
    }
  }

  ghost predicate HasKey<V(!new)>(s: Store<V>, key: string) {
    exists i :: 0 <= i < |s| && s[i].0 == key
  }

  lemma {:induction false} WithoutDistinct<V(!new)>(s: Store<V>, key: string)
    requires DistinctKeys(s)
    ensures DistinctKeys(Without(s, key)) && !HasKey(Without(s, key), key)
    ensures forall k :: HasKey(Without(s, key), k) ==> HasKey(s, k)
    ensures |Without(s, key)| == if HasKey(s, key) then |s| - 1 else |s|
    decreases |s|
  {
    if s != [] {
      var init, last := s[..|s| - 1], s[|s| - 1];
      WithoutDistinct(init, key);
      KeysSnoc(init, last);
      KeysSnoc(Without(init, key), last);
      assert s == init + [last];
      assert !HasKey(init, last.0);
      assert Without(init, key) + [] == Without(init, key);
      assert HasKey(s, key) <==> HasKey(init, key) || last.0 == key;
    }
  }

  lemma KeysSnoc<V(!new)>(s: Store<V>, e: (string, V))
    ensures forall k :: HasKey(s + [e], k) <==> HasKey(s, k) || e.0 == k
    ensures DistinctKeys(s) && !HasKey(s, e.0) ==> DistinctKeys(s + [e])
  {
    forall k ensures HasKey(s + [e], k) <==> HasKey(s, k) || e.0 == k {
      if e.0 == k { assert (s + [e])[|s|].0 == k; }
      if HasKey(s, k) {
        var i :| 0 <= i < |s| && s[i].0 == k;
        assert (s + [e])[i].0 == k;
      }
    }
  }

  lemma {:induction false} AllWritesDistinct<V(!new)>(ws: seq<(string, V)>)
    ensures DistinctKeys(AllWrites(ws))
    decreases |ws|
  {
    if ws != [] {
      var n := |ws| - 1;
      AllWritesDistinct(ws[..n]);
      WithoutDistinct(AllWrites(ws[..n]), ws[n].0);
      KeysSnoc(Without(AllWrites(ws[..n]), ws[n].0), ws[n]);
      assert (ws[n].0, ws[n].1) == ws[n];
    }
  }

  /** Evicting before a write and after it comes to the same as evicting after it alone. */
  lemma EvictOnce<V(!new)>(s: Store<V>, key: string, v: V, n: nat)
    requires DistinctKeys(s) && n >= 1
    ensures Last(Put(Last(s, n), key, v), n) == Last(Put(s, key, v), n)
  {
    if |s| > n {
      var old_, recent := s[..|s| - n], s[|s| - n..];
      assert s == old_ + recent;
      WithoutConcat(old_, recent, key);
      WithoutDistinct(recent, key);
      PutConcat(Without(old_, key), Without(recent, key), (key, v), n);
    }
  }

  lemma PutConcat<T>(w: seq<T>, x: seq<T>, e: T, n: nat)
    requires |x| + 1 >= n
    ensures Last((w + x) + [e], n) == Last(x + [e], n)
  {
    assert (w + x) + [e] == w + (x + [e]);
    LastOfConcat(w, x + [e], n);
  }

  lemma LastOfConcat<T>(w: seq<T>, x: seq<T>, n: nat)
    requires |x| >= n
    ensures Last(w + x, n) == Last(x, n)
  {
  }

  /** The store holds, in order of last write, exactly the most recently written keys. */
  lemma {:induction false} StoreIsMostRecent<V(!new)>(ws: seq<(string, V)>)
    ensures StoreAfter(ws) == Last(AllWrites(ws), 20)
    decreases |ws|
  {
    if ws != [] {
      var n := |ws| - 1;
      StoreIsMostRecent(ws[..n]);
      AllWritesDistinct(ws[..n]);
      EvictOnce(AllWrites(ws[..n]), ws[n].0, ws[n].1, MAX_AFFINITIES);
    }
  }

  /** The store remembers the last shape written for a key among the most recent. */
  lemma {:induction false} LastWriteWins<V>(ws: seq<(string, V)>, i: nat)
    requires i < |ws| && forall j :: i < j < |ws| ==> ws[j].0 != ws[i].0
    ensures ws[i] in AllWrites(ws)
    decreases |ws|
  {
    var n := |ws| - 1;
    var before := AllWrites(ws[..n]);
    if i < n {
      LastWriteWins(ws[..n], i);
      StillThere(before, ws[n], ws[i]);
    } else {
      WrittenLast(before, ws[n]);
    }
  }

  lemma StillThere<V>(s: Store<V>, w: (string, V), e: (string, V))
    requires e in s && e.0 != w.0
    ensures e in Put(s, w.0, w.1)
  {
    WithoutKeys(s, w.0, e);
  }

  lemma WrittenLast<V>(s: Store<V>, w: (string, V))
    ensures w in Put(s, w.0, w.1)
  {
    assert Put(s, w.0, w.1)[|Put(s, w.0, w.1)| - 1] == w;
  }
}
