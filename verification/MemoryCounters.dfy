/**
 * Reinforcement counters, on the text of any memory file: whatever is added and pruned, an entry
 * with a positive counter leaves an entry with at least that counter.
 */
module MemoryCounters {
  import opened Common
  import opened Text
  import opened EntryFormat
  import opened MemoryStore
  import opened MemoryEntries
  import opened MemoryRuns

  /** The counter read off an entry's text; `None` when it is not a number. */
  function Counter(p: string): Option<int> {
    ParseInt(Get(ParseMeta(p), "reinforced", "0"))
  }

  predicate Reaches(p: string, n: int) {
    Counter(p).Some? && Counter(p).value >= n
  }

  predicate Counted(ps: seq<string>, n: int) {
    exists i :: 0 <= i < |ps| && Reaches(ps[i], n)
  }

  // ---------- text that holds no comment ----------

  /** A text whose last comment is that of `p` has its counter. */
  lemma SameComment(p: string, q: string, n: int)
    requires LastKv(p) == LastKv(q)
    ensures Reaches(p, n) == Reaches(q, n)
  {
  }

  lemma NoComment(p: string, n: int)
    requires LastKv(p) == None && n >= 1
    ensures !Reaches(p, n)
  {
    ZeroParses();
  }

  lemma SkipSpaceShrinks(q: string, y: string, i: nat)
    requires i <= |q| && SkipSpace(q + y, i) < |q|
    ensures SkipSpace(q, i) == SkipSpace(q + y, i)
    decreases |q| - i
  {
    if IsSpace(q[i]) { SkipSpaceShrinks(q, y, i + 1); }
  }

  lemma MarkerShrinks(q: string, y: string)
    requires NoGt(y)
    ensures MarkerLength(q + y) == MarkerLength(q)
  {
    if MarkerLength(q) > 0 {
      MarkerExtends(q, y);
    } else if MarkerLength(q + y) > 0 {
      var p := Opening(q + y);
      var g := FindGt(q + y, p);
      GtWithin(q, y, g);
      OpeningShrinks(q, y);
      GtShrinks(q, y, p);
    }
  }

  lemma GtWithin(q: string, y: string, g: nat)
    requires NoGt(y) && g < |q + y| && (q + y)[g] == '>'
    ensures g < |q|
  {
    forall j | |q| <= j < |q + y| ensures (q + y)[j] == y[j - |q|] {}
  }

  lemma OpeningShrinks(q: string, y: string)
    requires 0 < Opening(q + y) <= |q|
    ensures Opening(q) == Opening(q + y)
  {
    SkipSpaceShrinks(q, y, 4);
    assert forall j :: 0 <= j < |q| ==> (q + y)[j] == q[j];
  }

  lemma GtShrinks(q: string, y: string, p: nat)
    requires p <= |q| && FindGt(q + y, p) < |q|
    ensures FindGt(q, p) == FindGt(q + y, p)
  {
    assert forall j :: 0 <= j < |q| ==> (q + y)[j] == q[j];
    FindGtIs(q, p, FindGt(q + y, p));
  }

  lemma MatchShrinks(q: string, y: string)
    requires q != "" && NoGt(y)
    ensures MatchLength(q + y) == MatchLength(q)
  {
    assert (q + y)[0] == q[0];
    MarkerShrinks(q, y);
    TailExtends(q, y);
    MarkerShrinks(q[1..], y);
  }

  /** Text without a closing bracket adds no comment behind `q`. */
  lemma {:induction false} LastKvBehind(q: string, y: string)
    requires NoGt(y)
    ensures LastKv(q + y) == LastKv(q)
    decreases |q|
  {
    if q == "" {
      assert q + y == y;
      NothingCloses(y);
    } else {
      MatchShrinks(q, y);
      var m := MatchLength(q);
      if m > 0 {
        LastKvBehind(q[m..], y);
        SameHead(q, y, m);
      } else {
        LastKvBehind(q[1..], y);
        LastKvSkips(q, y);
        assert "" + q == q && q + "" == q;
      }
    }
  }

  lemma SameHead(q: string, y: string, m: nat)
    requires q != "" && NoGt(y) && 0 < m == MatchLength(q) == MatchLength(q + y)
    requires LastKv(q[m..] + y) == LastKv(q[m..])
    ensures LastKv(q + y) == LastKv(q)
  {
    DropInside(q, y, m);
    if LastKv(q[m..]).None? {
      LastKvHere(q);
      LastKvHere(q + y);
      SameKv(q, y);
    }
  }

  lemma SameKv(q: string, y: string)
    requires q != "" && NoGt(y) && MatchLength(q) > 0
    ensures MarkerLength(Inner(q)) > 0 && MarkerLength(Inner(q + y)) > 0 && Kv(Inner(q + y)) == Kv(Inner(q))
  {
    TailExtends(q, y);
    assert (q + y)[0] == q[0];
    MarkerShrinks(q, y);
    MarkerShrinks(q[1..], y);
    KvExtends(Inner(q), y);
  }

  lemma KvExtends(s: string, y: string)
    requires MarkerLength(s) > 0
    ensures MarkerLength(s + y) > 0 && Kv(s + y) == Kv(s)
  {
    MarkerExtends(s, y);
    OpeningExtends(s, y);
    var p, m := Opening(s), MarkerLength(s);
    assert (s + y)[p..m - 3] == s[p..m - 3];
  }

  lemma {:induction false} NothingCloses(y: string)
    requires NoGt(y)
    ensures LastKv(y) == None
    decreases |y|
  {
    if y != "" { NothingCloses(y[1..]); }
  }

  /** A character that opens no comment adds none before `s`. */
  lemma LastKvBefore1(c: char, s: string)
    requires c != '<'
    ensures LastKv([c] + s) == LastKv(s)
  {
    var t := [c] + s;
    assert t[0] == c && t[1..] == s;
    if MatchLength(t) > 0 {
      assert c == '\n' && MarkerLength(s) > 0;
      assert s[0] == '<';
      assert t[MatchLength(t)..] == s[MatchLength(s)..];
    }
  }

  // ---------- space at the ends of the file ----------

  lemma CountedCons(p: string, p': string, rest: seq<string>, n: int)
    requires LastKv(p) == LastKv(p')
    ensures Counted([p] + rest, n) == Counted([p'] + rest, n)
  {
    SameComment(p, p', n);
    CountedApart(p, rest, n);
    CountedApart(p', rest, n);
  }

  lemma CountedApart(p: string, rest: seq<string>, n: int)
    ensures Counted([p] + rest, n) == (Reaches(p, n) || Counted(rest, n))
  {
    var ps := [p] + rest;
    if Counted(rest, n) {
      var i :| 0 <= i < |rest| && Reaches(rest[i], n);
      assert ps[i + 1] == rest[i];
    }
    if Reaches(p, n) { assert ps[0] == p; }
    if Counted(ps, n) {
      var i :| 0 <= i < |ps| && Reaches(ps[i], n);
      if i > 0 { assert ps[i] == rest[i - 1]; }
    }
  }

  /** A character before the file that opens no comment changes no counter, even where it makes or undoes a delimiter. */
  lemma {:induction false} HeadIgnored(c: char, s: string, n: int)
    requires c != '<' && n >= 1
    ensures Counted(SplitEntries([c] + s), n) == Counted(SplitEntries(s), n)
    decreases |s|
  {
    var t := [c] + s;
    if DELIMITER <= t {
      var u := t[3..];
      DelimiterHead(t, c, s, u);
      HeadIgnored('\n', u, n);
      HeadIgnored('\U{00A7}', "\n" + u, n);
      NothingCloses("");
      NoComment("", n);
      CountedApart("", SplitEntries(u), n);
    } else {
      var rest := SplitEntries(s);
      assert t[1..] == s;
      LastKvBefore1(c, rest[0]);
      CountedCons([c] + rest[0], rest[0], rest[1..], n);
      assert rest == [rest[0]] + rest[1..];
    }
  }

  lemma DelimiterHead(t: string, c: char, s: string, u: string)
    requires t == [c] + s && DELIMITER <= t && u == t[3..]
    ensures s == ['\U{00A7}'] + ("\n" + u) && "\n" + u == ['\n'] + u
    ensures SplitEntries(t) == [""] + SplitEntries(u)
  {
    assert t == DELIMITER + u;
    assert s == t[1..];
    assert s[0] == DELIMITER[1] && s[1] == DELIMITER[2];
  }

  lemma {:induction false} LstripIgnored(s: string, n: int)
    requires n >= 1
    ensures Counted(SplitEntries(Lstrip(s)), n) == Counted(SplitEntries(s), n)
    decreases |s|
  {
    if s != "" && IsSpace(s[0]) {
      LstripIgnored(s[1..], n);
      HeadIgnored(s[0], s[1..], n);
      assert s == [s[0]] + s[1..];
    }
  }

  /** The entries of `s` when `pre` stands before it in the same entry. */
  function Glue(pre: string, ps: seq<string>): seq<string>
    requires ps != []
  {
    [pre + ps[0]] + ps[1..]
  }

  lemma GlueCons(pre: string, s: string)
    requires s != "" && !(DELIMITER <= s)
    ensures Glue(pre, SplitEntries(s)) == Glue(pre + [s[0]], SplitEntries(s[1..]))
  {
    var rest := SplitEntries(s[1..]);
    assert pre + ([s[0]] + rest[0]) == (pre + [s[0]]) + rest[0];
  }

  lemma GlueDelimiter(pre: string, s: string, t: string)
    requires s == DELIMITER + t
    ensures Glue(pre, SplitEntries(s)) == [pre] + SplitEntries(t)
  {
    assert s[3..] == t;
    assert pre + "" == pre;
  }

  lemma GlueNothing(ps: seq<string>)
    requires ps != []
    ensures Glue("", ps) == ps
  {
    assert "" + ps[0] == ps[0];
  }

  lemma GlueSingle(pre: string, s: string)
    requires DelimFree(s)
    ensures Glue(pre, SplitEntries(s)) == [pre + s]
  {
    SplitSingle(s);
  }

  lemma CountedSingle(p: string, n: int)
    ensures Counted([p], n) == Reaches(p, n)
  {
    CountedApart(p, [], n);
    assert [p] + [] == [p];
  }

  lemma LongerHolds(s: string, x: string)
    ensures |s| >= 3 && DELIMITER <= s + x ==> DELIMITER <= s
  {
    if |s| >= 3 { assert (s + x)[..3] == s[..3]; }
  }

  /** A delimiter that the text after `s` completes. */
  lemma Straddles(s: string, x: string)
    requires s != "" && !(DELIMITER <= s) && DELIMITER <= s + x
    ensures s == "\n" || s == "\n\U{00A7}"
    ensures s == "\n" ==> |x| >= 2 && x[0] == '\U{00A7}' && x[1] == '\n'
    ensures s == "\n\U{00A7}" ==> x != "" && x[0] == '\n' && s + x == DELIMITER + x[1..]
  {
    var w := s + x;
    assert w[0] == '\n' && w[1] == '\U{00A7}' && w[2] == '\n';
    LongerHolds(s, x);
    assert forall j :: 0 <= j < |s| ==> w[j] == s[j];
    assert forall j :: |s| <= j < |w| ==> w[j] == x[j - |s|];
    if |s| == 1 {
      assert s == [s[0]];
      assert w[1] == x[0] && w[2] == x[1];
    } else {
      assert s == [s[0], s[1]];
      assert w[2] == x[0];
    }
  }

  /** A character at the end that closes no comment changes no counter, even where it makes a delimiter. */
  lemma {:induction false} EndIgnored(pre: string, s: string, c: char, n: int)
    requires c != '>' && n >= 1
    ensures Counted(Glue(pre, SplitEntries(s + [c])), n) == Counted(Glue(pre, SplitEntries(s)), n)
    decreases |s|
  {
    if s == "" {
      EndOfEntry(pre, c, n);
    } else if DELIMITER <= s {
      EndAfterDelimiter(pre, s, c, n);
    } else if DELIMITER <= s + [c] {
      Straddles(s, [c]);
      EndMakesDelimiter(pre, s, [c], n);
    } else {
      EndIgnored(pre + [s[0]], s[1..], c, n);
      GlueCons(pre, s);
      GlueCons(pre, s + [c]);
      HeadAndTail(s, [c], "");
    }
  }

  lemma EndOfEntry(pre: string, c: char, n: int)
    requires c != '>'
    ensures Counted(Glue(pre, SplitEntries("" + [c])), n) == Counted(Glue(pre, SplitEntries("")), n)
  {
    assert "" + [c] == [c] && [c][1..] == "" && !(DELIMITER <= [c]);
    GlueSingle(pre, [c]);
    GlueSingle(pre, "");
    LastKvBehind(pre, [c]);
    assert pre + "" == pre;
    CountedCons(pre + [c], pre, [], n);
    assert [pre + [c]] + [] == [pre + [c]] && [pre] + [] == [pre];
  }

  lemma EndAfterDelimiter(pre: string, s: string, c: char, n: int)
    requires c != '>' && n >= 1 && DELIMITER <= s
    ensures Counted(Glue(pre, SplitEntries(s + [c])), n) == Counted(Glue(pre, SplitEntries(s)), n)
    decreases |s|, 0
  {
    var t := s[3..];
    DelimiterBehind(pre, s, t, [c]);
    EndIgnored("", t, c, n);
    GlueNothing(SplitEntries(t));
    GlueNothing(SplitEntries(t + [c]));
    CountedApart(pre, SplitEntries(t), n);
    CountedApart(pre, SplitEntries(t + [c]), n);
  }

  lemma DelimiterBehind(pre: string, s: string, t: string, x: string)
    requires DELIMITER <= s && s[3..] == t
    ensures Glue(pre, SplitEntries(s)) == [pre] + SplitEntries(t)
    ensures Glue(pre, SplitEntries(s + x)) == [pre] + SplitEntries(t + x)
  {
    assert s == DELIMITER + t && s + x == DELIMITER + (t + x);
    GlueDelimiter(pre, s, t);
    GlueDelimiter(pre, s + x, t + x);
  }

  /** Where a line break completes a delimiter, the entry before it keeps its counter. */
  lemma EndMakesDelimiter(pre: string, s: string, x: string, n: int)
    requires n >= 1 && s == "\n\U{00A7}" && x == "\n"
    ensures Counted(Glue(pre, SplitEntries(s + x)), n) == Counted(Glue(pre, SplitEntries(s)), n)
  {
    assert s + x == DELIMITER + "";
    GlueDelimiter(pre, s + x, "");
    NothingCloses("");
    NoComment("", n);
    CountedApart(pre, [""], n);
    CountedSingle("", n);
    MarkFree("");
    assert "" + s == s;
    GlueSingle(pre, s);
    LastKvBehind(pre, s);
    CountedSingle(pre + s, n);
    SameComment(pre, pre + s, n);
    assert SplitEntries("") == [""];
  }

  lemma {:induction false} RstripIgnored(s: string, n: int)
    requires n >= 1
    ensures Counted(SplitEntries(Rstrip(s)), n) == Counted(SplitEntries(s), n)
    decreases |s|
  {
    if s != "" && IsSpace(s[|s| - 1]) {
      var t := s[..|s| - 1];
      RstripIgnored(t, n);
      LastSpaceIgnored(t, s[|s| - 1], n);
      assert s == t + [s[|s| - 1]];
    }
  }

  lemma LastSpaceIgnored(t: string, c: char, n: int)
    requires n >= 1 && IsSpace(c)
    ensures Counted(SplitEntries(t + [c]), n) == Counted(SplitEntries(t), n)
  {
    EndIgnored("", t, c, n);
    GlueNothing(SplitEntries(t));
    GlueNothing(SplitEntries(t + [c]));
  }

  lemma StripIgnored(s: string, n: int)
    requires n >= 1 && Counted(SplitEntries(s), n)
    ensures Strip(s) != ""
    ensures Counted(SplitEntries(Strip(s)), n) && Counted(SplitEntries(Strip(s) + "\n"), n)
  {
    LstripIgnored(s, n);
    RstripIgnored(Lstrip(s), n);
    EndIgnored("", Strip(s), '\n', n);
    GlueNothing(SplitEntries(Strip(s)));
    GlueNothing(SplitEntries(Strip(s) + "\n"));
    NothingCloses("");
    NoComment("", n);
    CountedSingle("", n);
  }

  // ---------- appending ----------

  /** An entry appended behind a delimiter leaves the counters before it. */
  lemma {:induction false} CountedThen(pre: string, s: string, y: string, n: int)
    requires n >= 1 && Counted(Glue(pre, SplitEntries(s)), n)
    ensures Counted(Glue(pre, SplitEntries(s + (DELIMITER + y))), n)
    decreases |s|
  {
    var x := DELIMITER + y;
    if s == "" {
      assert s + x == x;
      GlueDelimiter(pre, x, y);
      GlueSingle(pre, "");
      CountedSingle(pre, n);
      assert pre + "" == pre;
      CountedApart(pre, SplitEntries(y), n);
    } else if DELIMITER <= s {
      CountedThenDelimiter(pre, s, y, n);
    } else if DELIMITER <= s + x {
      Straddles(s, x);
      assert x[0] == '\n';
      StraddledThen(pre, s, x[1..], n);
    } else {
      GlueCons(pre, s);
      CountedThen(pre + [s[0]], s[1..], y, n);
      GlueCons(pre, s + x);
      HeadAndTail(s, x, "");
    }
  }

  lemma CountedThenDelimiter(pre: string, s: string, y: string, n: int)
    requires n >= 1 && DELIMITER <= s && Counted(Glue(pre, SplitEntries(s)), n)
    ensures Counted(Glue(pre, SplitEntries(s + (DELIMITER + y))), n)
    decreases |s|, 0
  {
    var t := s[3..];
    var x := DELIMITER + y;
    DelimiterBehind(pre, s, t, x);
    if Counted(SplitEntries(t), n) {
      GlueNothing(SplitEntries(t));
      CountedThen("", t, y, n);
      GlueNothing(SplitEntries(t + x));
    }
    CountedSwap(pre, SplitEntries(t), SplitEntries(t + x), n);
  }

  lemma CountedSwap(p: string, ps: seq<string>, qs: seq<string>, n: int)
    requires Counted(ps, n) ==> Counted(qs, n)
    ensures Counted([p] + ps, n) ==> Counted([p] + qs, n)
  {
    CountedApart(p, ps, n);
    CountedApart(p, qs, n);
  }

  lemma StraddledThen(pre: string, s: string, z: string, n: int)
    requires s == "\n\U{00A7}" && Counted(Glue(pre, SplitEntries(s)), n)
    ensures Counted(Glue(pre, SplitEntries(DELIMITER + z)), n)
  {
    MarkFree("");
    assert "" + s == s;
    GlueSingle(pre, s);
    CountedSingle(pre + s, n);
    LastKvBehind(pre, s);
    SameComment(pre, pre + s, n);
    GlueDelimiter(pre, DELIMITER + z, z);
    CountedApart(pre, SplitEntries(z), n);
  }

  // ---------- reinforcing ----------

  /** The comment of a reinforced entry. */
  ghost predicate Written(c: string, k: int) {
    exists conf: string, captured: string :: IsValue(conf) && IsValue(captured) && c == BuildMeta(conf, captured, k)
  }

  lemma WrittenReads(pre: string, c: string, k: int)
    requires Written(c, k)
    ensures Reaches(pre + c, k)
  {
    var conf: string, captured: string :| IsValue(conf) && IsValue(captured) && c == BuildMeta(conf, captured, k);
    NewlineIsInert();
    FieldsReadBack(pre, conf, captured, k, "");
    assert c + "" == c;
    ParseIntRoundTrip(k);
  }

  lemma DroppedReaches(c: string, k: int)
    requires Written(c, k)
    ensures Reaches(c[1..], k)
  {
    var conf: string, captured: string :| IsValue(conf) && IsValue(captured) && c == BuildMeta(conf, captured, k);
    DroppedReads(conf, captured, k, "");
    assert c[1..] + "" == c[1..];
    ParseIntRoundTrip(k);
  }

  lemma WrittenSolid(c: string, k: int)
    requires Written(c, k)
    ensures |c| >= 20 && c[0] == '\n' && Solid(c) && Solid(c[1..])
  {
    var conf: string, captured: string :| IsValue(conf) && IsValue(captured) && c == BuildMeta(conf, captured, k);
    BuiltKvShape(conf, captured, k);
    CommentEnds(BuiltKv(conf, captured, k));
    EmptySolid();
    CommentSolid("", BuiltKv(conf, captured, k), "");
    assert c + "" == c && "" + c == c && c[1..] + "" == c[1..];
  }

  lemma EmptySolid()
    ensures Solid("")
  {
    MarkFree("");
  }

  /** The part of the file from a reinforced entry on: `rest` is what comes after its delimiter, if anything. */
  function After(rest: Option<string>): string {
    match rest
    case None => ""
    case Some(r) => DELIMITER + r
  }

  lemma SolidAfter(pre: string, c: string, rest: Option<string>)
    requires Solid(c)
    ensures Glue(pre, SplitEntries(c + After(rest))) == [pre + c] + (if rest.Some? then SplitEntries(rest.value) else [])
  {
    if rest.Some? {
      SplitFirst(c, rest.value);
    } else {
      DelimFreePrefix(c, "\n\U{00A7}");
      GlueSingle(pre, c);
      assert c + "" == c;
    }
  }

  /** However the body before a comment splits, the last piece has the comment's counter; later entries keep theirs. */
  lemma {:induction false} CommentCounted(pre: string, b: string, c: string, k: int, rest: Option<string>, n: int)
    requires Written(c, k) && (k >= n || (rest.Some? && Counted(SplitEntries(rest.value), n)))
    ensures Counted(Glue(pre, SplitEntries(b + (c + After(rest)))), n)
    decreases |b|
  {
    var x := c + After(rest);
    WrittenSolid(c, k);
    if b == "" {
      assert b + x == x;
      SolidAfter(pre, c, rest);
      WrittenReads(pre, c, k);
      PieceCounted(pre + c, k, rest, n);
    } else if DELIMITER <= b {
      CommentAfterDelimiter(pre, b, c, k, rest, n);
    } else if DELIMITER <= b + x {
      Straddles(b, x);
      assert x[0] == c[0];
      StraddledComment(pre, b + x, c, k, rest, n, x[1..]);
    } else {
      CommentCounted(pre + [b[0]], b[1..], c, k, rest, n);
      GlueCons(pre, b + x);
      HeadAndTail(b, x, "");
    }
  }

  /** The comment's own line break completes a delimiter. */
  lemma StraddledComment(pre: string, s: string, c: string, k: int, rest: Option<string>, n: int, t: string)
    requires Written(c, k) && (k >= n || (rest.Some? && Counted(SplitEntries(rest.value), n)))
    requires s == DELIMITER + t && t == (c + After(rest))[1..] && c != ""
    ensures Counted(Glue(pre, SplitEntries(s)), n)
  {
    WrittenSolid(c, k);
    assert t == c[1..] + After(rest);
    GlueDelimiter(pre, s, t);
    SolidAfter("", c[1..], rest);
    DroppedReaches(c, k);
    assert "" + c[1..] == c[1..];
    PieceCounted(c[1..], k, rest, n);
    GlueNothing(SplitEntries(t));
    CountedApart(pre, SplitEntries(t), n);
  }

  lemma CommentAfterDelimiter(pre: string, b: string, c: string, k: int, rest: Option<string>, n: int)
    requires Written(c, k) && (k >= n || (rest.Some? && Counted(SplitEntries(rest.value), n)))
    requires DELIMITER <= b
    ensures Counted(Glue(pre, SplitEntries(b + (c + After(rest)))), n)
    decreases |b|, 0
  {
    var t, x := b[3..], c + After(rest);
    DelimiterBehind(pre, b, t, x);
    CommentCounted("", t, c, k, rest, n);
    GlueNothing(SplitEntries(t + x));
    CountedRight([pre], SplitEntries(t + x), n);
  }

  lemma PieceCounted(p: string, k: int, rest: Option<string>, n: int)
    requires Reaches(p, k) && (k >= n || (rest.Some? && Counted(SplitEntries(rest.value), n)))
    ensures Counted([p] + (if rest.Some? then SplitEntries(rest.value) else []), n)
  {
    CountedApart(p, if rest.Some? then SplitEntries(rest.value) else [], n);
  }

  /** Entries as splitting leaves them: only the last may end in the beginning of a delimiter. */
  predicate Parts(ps: seq<string>) {
    && ps != []
    && (forall i :: 0 <= i < |ps| - 1 ==> Solid(ps[i]))
    && DelimFree(ps[|ps| - 1])
  }

  lemma {:induction false} SplitIsParts(s: string)
    ensures Parts(SplitEntries(s))
    decreases |s|
  {
    if s == "" {
    } else if DELIMITER <= s {
      SplitIsParts(s[3..]);
      EmptySolid();
      PartsCons("", SplitEntries(s[3..]));
    } else {
      SplitIsParts(s[1..]);
      PartsGrow(s, SplitEntries(s[1..]));
    }
  }

  lemma PartsCons(p: string, ps: seq<string>)
    requires Solid(p) && Parts(ps)
    ensures Parts([p] + ps)
  {
    var qs := [p] + ps;
    assert qs[|qs| - 1] == ps[|ps| - 1];
    forall i | 0 <= i < |qs| - 1 ensures Solid(qs[i]) {
      if i > 0 { assert qs[i] == ps[i - 1]; }
    }
  }

  lemma PartsGrow(s: string, rest: seq<string>)
    requires s != "" && !(DELIMITER <= s) && Parts(rest) && rest == SplitEntries(s[1..])
    ensures Parts([[s[0]] + rest[0]] + rest[1..])
  {
    JoinSplit(s[1..]);
    if |rest| == 1 {
      var p := [s[0]] + rest[0];
      assert p == s;
      assert [p] + rest[1..] == [p];
    } else {
      PartsGrowMore(s, rest);
    }
  }

  lemma PartsGrowMore(s: string, rest: seq<string>)
    requires s != "" && !(DELIMITER <= s) && Parts(rest) && |rest| > 1 && Join(rest) == s[1..]
    ensures Parts([[s[0]] + rest[0]] + rest[1..])
  {
    var p := [s[0]] + rest[0];
    assert Join(rest) == rest[0] + (DELIMITER + Join(rest[1..]));
    FrontGrows(s, rest[0], DELIMITER + Join(rest[1..]));
    PartsTail(rest);
    GrowSolid(s, p, Join(rest[1..]));
    PartsCons(p, rest[1..]);
  }

  lemma FrontGrows(s: string, head: string, tail: string)
    requires s != "" && s[1..] == head + tail
    ensures s == ([s[0]] + head) + tail && ([s[0]] + head)[1..] == head
  {
    assert s == [s[0]] + s[1..];
  }

  lemma PartsTail(ps: seq<string>)
    requires Parts(ps) && |ps| > 1
    ensures Parts(ps[1..]) && Solid(ps[0])
  {
    assert ps[1..][|ps| - 2] == ps[|ps| - 1];
  }

  lemma GrowSolid(s: string, p: string, tail: string)
    requires p != "" && s == p + (DELIMITER + tail) && !(DELIMITER <= s) && Solid(p[1..])
    ensures Solid(p)
  {
    var mark := p + "\n\U{00A7}";
    assert mark[1..] == p[1..] + "\n\U{00A7}";
    assert mark <= s;
  }

  lemma {:induction false} SplitJoinParts(ps: seq<string>)
    requires Parts(ps)
    ensures SplitEntries(Join(ps)) == ps
    decreases |ps|
  {
    if |ps| == 1 {
      SplitSingle(ps[0]);
    } else {
      SplitJoinParts(ps[1..]);
      SplitFirst(ps[0], Join(ps[1..]));
    }
  }

  lemma PartsApart(p: string, qs: seq<string>)
    requires qs != [] && Parts([p] + qs)
    ensures Solid(p) && Parts(qs)
  {
    var ps := [p] + qs;
    assert ps[0] == p && ps[|ps| - 1] == qs[|qs| - 1];
    forall i | 0 <= i < |qs| - 1 ensures Solid(qs[i]) {
      assert ps[i + 1] == qs[i];
    }
  }

  /** Solid entries in front of a text split off one by one. */
  lemma {:induction false} FrontSplits(front: seq<string>, back: seq<string>)
    requires AllSolid(front) && back != []
    ensures SplitEntries(Join(front + back)) == front + SplitEntries(Join(back))
    decreases |front|
  {
    if front == [] {
      assert front + back == back;
    } else {
      FrontSplits(front[1..], back);
      FirstSplits(front[0], front[1..] + back);
      assert front + back == [front[0]] + (front[1..] + back);
      assert front == [front[0]] + front[1..];
    }
  }

  lemma FirstSplits(p: string, rest: seq<string>)
    requires Solid(p) && rest != []
    ensures SplitEntries(Join([p] + rest)) == [p] + SplitEntries(Join(rest))
  {
    assert ([p] + rest)[1..] == rest;
    SplitFirst(p, Join(rest));
  }

  lemma CountedIn(ps: seq<string>, p: string, n: int)
    requires p in ps && Reaches(p, n)
    ensures Counted(ps, n)
  {
    var i :| 0 <= i < |ps| && ps[i] == p;
  }

  lemma CountedRight(front: seq<string>, back: seq<string>, n: int)
    requires Counted(back, n)
    ensures Counted(front + back, n)
  {
    var i :| 0 <= i < |back| && Reaches(back[i], n);
    assert (front + back)[|front| + i] == back[i];
  }

  /** Rewriting one entry with a higher counter keeps up the counter of `p`, wherever it stands. */
  lemma ReinforcedAmong(front: seq<string>, x: string, back: seq<string>, p: string, b: string, c: string, k: int, n: int)
    requires AllSolid(front) && Parts([x] + back) && Reaches(p, n) && Written(c, k)
    requires p in front || p in back || k >= n
    ensures Counted(SplitEntries(Join(front + ([b + c] + back))), n)
  {
    FrontSplits(front, [b + c] + back);
    var rest := SplitEntries(Join([b + c] + back));
    if p in front {
      CountedIn(front + rest, p, n);
    } else {
      if p in back { CountedIn(back, p, n); }
      ReinforcedFirst(x, back, b, c, k, n);
      CountedRight(front, rest, n);
    }
  }

  lemma ReinforcedCounted(ps: seq<string>, i: nat, p: string, b: string, c: string, k: int, n: int)
    requires Parts(ps) && i < |ps| && p in ps && Reaches(p, n)
    requires Written(c, k) && (p == ps[i] ==> k >= n)
    ensures Counted(SplitEntries(Join(ps[i := b + c])), n)
  {
    Around(ps, i, p, b + c);
    PartsBehind(ps, i);
    ReinforcedAmong(ps[..i], ps[i], ps[i + 1..], p, b, c, k, n);
  }

  lemma Around(ps: seq<string>, i: nat, p: string, q: string)
    requires i < |ps| && p in ps
    ensures p in ps[..i] || p == ps[i] || p in ps[i + 1..]
    ensures ps[i := q] == ps[..i] + ([q] + ps[i + 1..])
  {
  }

  lemma PartsBehind(ps: seq<string>, i: nat)
    requires Parts(ps) && i < |ps|
    ensures Parts([ps[i]] + ps[i + 1..])
  {
    var qs := [ps[i]] + ps[i + 1..];
    assert qs == ps[i..];
  }

  lemma ReinforcedFirst(p: string, qs: seq<string>, b: string, c: string, k: int, n: int)
    requires Parts([p] + qs) && Written(c, k) && (k >= n || Counted(qs, n))
    ensures Counted(SplitEntries(Join([b + c] + qs)), n)
  {
    if qs == [] {
      assert [b + c] + qs == [b + c];
      RewrittenCounted(b, c, k, None, n, Join([b + c]));
    } else {
      PartsApart(p, qs);
      SplitJoinParts(qs);
      assert ([b + c] + qs)[1..] == qs;
      RewrittenCounted(b, c, k, Some(Join(qs)), n, Join([b + c] + qs));
    }
  }

  lemma RewrittenCounted(b: string, c: string, k: int, rest: Option<string>, n: int, text: string)
    requires Written(c, k) && (k >= n || (rest.Some? && Counted(SplitEntries(rest.value), n)))
    requires text == (b + c) + After(rest)
    ensures Counted(SplitEntries(text), n)
  {
    CommentCounted("", b, c, k, rest, n);
    Associates(b, c, After(rest));
    GlueNothing(SplitEntries(text));
  }

  // ---------- what a reinforcement writes ----------

  lemma {:induction false} TokensAreValues(s: string)
    requires NoGt(s)
    ensures forall k :: k in Tokens(s) ==> IsValue(Tokens(s)[k])
    decreases |s|
  {
    if s != "" {
      var n := TokenLength(s);
      if n > 0 {
        TokensAreValues(s[n..]);
        ValueRunIsValue(s[WordRun(s) + 1..]);
        assert s[WordRun(s) + 1..n] == s[WordRun(s) + 1..][..n - WordRun(s) - 1];
      } else {
        TokensAreValues(s[1..]);
      }
    }
  }

  lemma {:induction false} ValueRunIsValue(s: string)
    requires NoGt(s)
    ensures ValueRun(s) > 0 ==> IsValue(s[..ValueRun(s)])
    decreases |s|
  {
    if s != "" && !IsSpace(s[0]) {
      ValueRunIsValue(s[1..]);
      var n := ValueRun(s[1..]);
      assert s[..n + 1] == [s[0]] + s[1..][..n];
    }
  }

  lemma KvHasNoGt(s: string)
    requires MarkerLength(s) > 0
    ensures NoGt(Kv(s))
  {
    var inner := s[Opening(s)..MarkerLength(s) - 3];
    StripIsPart(inner);
    var kv := Kv(s);
    forall i | 0 <= i < |kv| ensures kv[i] != '>' {
      assert kv[i] in kv;
      assert kv[i] in inner;
    }
  }

  lemma {:induction false} LastKvHasNoGt(s: string)
    ensures LastKv(s).Some? ==> NoGt(LastKv(s).value)
    decreases |s|
  {
    if s != "" {
      var m := MatchLength(s);
      if m > 0 {
        LastKvHasNoGt(s[m..]);
        KvHasNoGt(Inner(s));
      } else {
        LastKvHasNoGt(s[1..]);
      }
    }
  }

  lemma MetaIsValues(p: string)
    ensures forall k :: k in ParseMeta(p) ==> IsValue(ParseMeta(p)[k])
  {
    LastKvHasNoGt(p);
    if LastKv(p).Some? { TokensAreValues(LastKv(p).value); }
  }

  /** A reinforcement that does not raise counts one up. */
  lemma BumpWrites(o: Oracles, p: string, today: int) returns (b: string, c: string, k: int)
    requires Lawful(o) && BumpEntry(o, p, today).Some?
    ensures BumpEntry(o, p, today) == Some(b + c) && Written(c, k) && Counter(p) == Some(k - 1)
    ensures b == RstripNewlines(StripMeta(p))
  {
    MetaIsValues(p);
    NormalIsValue();
    var meta := ParseMeta(p);
    var d := if "captured" in meta then o.parseDate(meta["captured"]) else Some(today);
    b, c, k := BumpParts(o, RstripNewlines(StripMeta(p)), Get(meta, "conf", DEFAULT_CONFIDENCE), Counter(p), d);
  }

  lemma BumpParts(o: Oracles, body: string, conf: string, reinforced: Option<int>, captured: Option<int>)
    returns (b: string, c: string, k: int)
    requires Lawful(o) && IsValue(conf) && Bump(o, body, conf, reinforced, captured).Some?
    ensures Bump(o, body, conf, reinforced, captured) == Some(b + c) && Written(c, k) && reinforced == Some(k - 1)
    ensures b == body
  {
    NormalIsValue();
    k := reinforced.value + 1;
    var conf' := if conf == "low" && k >= 2 then "normal" else conf;
    assert DateSurvives(o, captured.value);
    b, c := body, BuildMeta(conf', o.isoDate(captured.value), k);
  }

  lemma ReinforceKeepsCounters(o: Oracles, text: string, i: nat, today: int, n: int)
    requires Lawful(o) && Counted(SplitEntries(text), n)
    ensures Counted(SplitEntries(ReinforceText(o, text, i, today).0), n)
  {
    var ps := SplitEntries(text);
    if i < |ps| && BumpEntry(o, ps[i], today).Some? {
      var b, c, k := BumpWrites(o, ps[i], today);
      SplitIsParts(text);
      var j :| 0 <= j < |ps| && Reaches(ps[j], n);
      ReinforcedCounted(ps, i, ps[j], b, c, k, n);
    }
  }

  lemma AppendKeepsCounters(limit: nat, text: string, block: string, n: int)
    requires n >= 1 && Counted(SplitEntries(text), n)
    ensures Counted(SplitEntries(AppendText(limit, text, block).0), n)
  {
    StripIgnored(text, n);
    RstripIgnored(text, n);
    BlockCounted(Rstrip(text), block, n);
  }

  lemma BlockCounted(s: string, block: string, n: int)
    requires n >= 1 && Counted(SplitEntries(s), n)
    ensures Counted(SplitEntries(s + (DELIMITER + block)), n)
  {
    GlueNothing(SplitEntries(s));
    CountedThen("", s, block, n);
    GlueNothing(SplitEntries(s + (DELIMITER + block)));
  }

  lemma AddKeepsCounters(o: Oracles, limit: nat, text: string, cleaned: string, conf: string, today: int, n: int)
    requires Lawful(o) && n >= 1 && Counted(SplitEntries(text), n)
    ensures Counted(SplitEntries(AddCleaned(o, limit, text, cleaned, conf, today).0), n)
  {
    if cleaned != "" && IsConfidence(conf) {
      ChosenKeepsCounters(o, limit, text, DuplicateIndex(o, text, cleaned), NewBlock(o, cleaned, conf, today), today, n);
    }
  }

  lemma ChosenKeepsCounters(o: Oracles, limit: nat, text: string, dup: Option<nat>, block: string, today: int, n: int)
    requires Lawful(o) && n >= 1 && Counted(SplitEntries(text), n)
    ensures Counted(SplitEntries(AddChosen(o, limit, text, dup, block, today).0), n)
  {
    match dup
    case Some(i) => ReinforceKeepsCounters(o, text, i, today, n);
    case None => AppendKeepsCounters(limit, text, block, n);
  }

  // ---------- pruning ----------

  lemma NotPruned(o: Oracles, p: string, today: int, maxAge: int, n: int)
    requires n >= 1 && Reaches(p, n)
    ensures ShouldPrune(o, p, today, maxAge) == Some(false)
  {
  }

  lemma {:induction false} KeptStays(o: Oracles, ps: seq<string>, today: int, maxAge: int, i: nat, p: string)
    requires KeepParts(o, ps, today, maxAge).Some? && i < |ps| && ps[i] == p
    requires ShouldPrune(o, p, today, maxAge) == Some(false)
    ensures p in KeepParts(o, ps, today, maxAge).value
    decreases |ps|
  {
    if i < |ps| - 1 { KeptStays(o, ps[..|ps| - 1], today, maxAge, i, p); }
  }

  lemma KeepKeepsCounters(o: Oracles, ps: seq<string>, today: int, maxAge: int, n: int, i: nat, p: string)
    requires n >= 1 && KeepParts(o, ps, today, maxAge).Some? && i < |ps| && ps[i] == p && Reaches(p, n)
    ensures Counted(KeepParts(o, ps, today, maxAge).value, n)
  {
    NotPruned(o, p, today, maxAge, n);
    KeptStays(o, ps, today, maxAge, i, p);
    CountedIn(KeepParts(o, ps, today, maxAge).value, p, n);
  }

  lemma {:induction false} KeepKeepsSolid(o: Oracles, ps: seq<string>, today: int, maxAge: int)
    requires KeepParts(o, ps, today, maxAge).Some? && AllSolid(ps)
    ensures AllSolid(KeepParts(o, ps, today, maxAge).value)
    decreases |ps|
  {
    if ps != [] { KeepKeepsSolid(o, ps[..|ps| - 1], today, maxAge); }
  }

  predicate AllSolid(ps: seq<string>) {
    forall i :: 0 <= i < |ps| ==> Solid(ps[i])
  }

  lemma KeptIsParts(o: Oracles, ps: seq<string>, today: int, maxAge: int)
    requires Parts(ps) && KeepParts(o, ps, today, maxAge).Some? && KeepParts(o, ps, today, maxAge).value != []
    ensures Parts(KeepParts(o, ps, today, maxAge).value)
  {
    var k := |ps| - 1;
    assert AllSolid(ps[..k]);
    KeepKeepsSolid(o, ps[..k], today, maxAge);
    var init := KeepParts(o, ps[..k], today, maxAge).value;
    if KeepParts(o, ps, today, maxAge).value == init {
      DelimFreePrefix(init[|init| - 1], "\n\U{00A7}");
    }
  }

  lemma PruneKeepsCounters(o: Oracles, text: string, today: int, maxAge: int, n: int)
    requires n >= 1 && Counted(SplitEntries(text), n)
    ensures Counted(SplitEntries(PruneText(o, text, today, maxAge)), n)
  {
    var ps := SplitEntries(text);
    if maxAge > 0 && KeepParts(o, ps, today, maxAge).Some? {
      SplitIsParts(text);
      var i :| 0 <= i < |ps| && Reaches(ps[i], n);
      KeepKeepsCounters(o, ps, today, maxAge, n, i, ps[i]);
      KeptIsParts(o, ps, today, maxAge);
      var kept := KeepParts(o, ps, today, maxAge).value;
      SplitJoinParts(kept);
      StripIgnored(Join(kept), n);
    }
  }

  // ---------- runs ----------

  /**
   * Whatever text a file holds and whatever is added and pruned, some entry keeps at least the
   * counter that one had.
   */
  lemma {:induction false} CounterStays(o: Oracles, limit: nat, text: string, ops: seq<Op>, n: int)
    requires Lawful(o) && n >= 1 && Counted(SplitEntries(text), n)
    requires forall i :: 0 <= i < |ops| ==> AddsOrPrunes(ops[i])
    ensures Counted(SplitEntries(RunText(o, limit, text, ops)), n)
    decreases |ops|
  {
    if ops != [] {
      var k := |ops| - 1;
      var before := RunText(o, limit, text, ops[..k]);
      CounterStays(o, limit, text, ops[..k], n);
      match ops[k]
      case AddOp(content, conf, today) => AddKeepsCounters(o, limit, before, Clean(content), conf, today, n);
      case PruneOp(day, maxAge) => PruneKeepsCounters(o, before, day, maxAge, n);
    }
  }
}
