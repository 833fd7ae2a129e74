/**
 * The converse of the agreement between live deduplication and the audit: a content that is not
 * stable, added a few times to an empty file, leaves a duplicate the audit finds.
 */
module MemoryEscapes {
  import opened Common
  import opened Text
  import opened EntryFormat
  import opened Similarity
  import opened MemoryStore
  import opened MemoryEntries
  import opened MemoryRuns
  import opened MemoryCounters
  import opened MemorySize
  import opened MemoryGaps
  import MemoryAudit

  // ---------- what stripping and splitting take away ----------

  predicate IsMark(c: char) { c == '<' || c == '\U{00A7}' }

  /** How many characters of a text only stripping or splitting can take away. */
  function Marks(s: string): nat {
    if s == "" then 0 else (if IsMark(s[0]) then 1 else 0) + Marks(s[1..])
  }

  lemma {:induction false} MarksConcat(a: string, b: string)
    ensures Marks(a + b) == Marks(a) + Marks(b)
    decreases |a|
  {
    if a == "" {
      assert a + b == b;
    } else {
      assert (a + b)[1..] == a[1..] + b;
      MarksConcat(a[1..], b);
    }
  }

  lemma MarksSplit(s: string, n: nat)
    requires n <= |s|
    ensures Marks(s) == Marks(s[..n]) + Marks(s[n..])
  {
    MarksConcat(s[..n], s[n..]);
    assert s[..n] + s[n..] == s;
  }

  lemma MarksOfChar(c: char)
    ensures Marks([c]) == if IsMark(c) then 1 else 0
  {
    assert [c][1..] == "";
  }

  lemma MarksLast(s: string)
    requires s != "" && !IsMark(s[|s| - 1])
    ensures Marks(s[..|s| - 1]) == Marks(s)
  {
    MarksSplit(s, |s| - 1);
    MarksOfChar(s[|s| - 1]);
    assert s[|s| - 1..] == [s[|s| - 1]];
  }

  lemma {:induction false} PunctuationMarks(s: string)
    ensures Marks(RstripPunctuation(s)) == Marks(s)
    decreases |s|
  {
    if s != "" && IsPunctuation(s[|s| - 1]) {
      PunctuationMarks(s[..|s| - 1]);
      MarksLast(s);
    }
  }

  lemma {:induction false} RstripMarks(s: string)
    ensures Marks(Rstrip(s)) == Marks(s)
    decreases |s|
  {
    if s != "" && IsSpace(s[|s| - 1]) {
      RstripMarks(s[..|s| - 1]);
      MarksLast(s);
    }
  }

  lemma {:induction false} LstripMarks(s: string)
    ensures Marks(Lstrip(s)) == Marks(s)
    decreases |s|
  {
    if s != "" && IsSpace(s[0]) { LstripMarks(s[1..]); }
  }

  lemma {:induction false} BreakMarks(s: string)
    ensures Marks(RstripNewlines(s)) == Marks(s)
    decreases |s|
  {
    if s != "" && s[|s| - 1] == '\n' {
      BreakMarks(s[..|s| - 1]);
      MarksLast(s);
    }
  }

  lemma EssenceMarks(s: string)
    ensures Marks(Essence(s)) == Marks(s)
  {
    LstripMarks(s);
    RstripMarks(Lstrip(s));
    PunctuationMarks(Strip(s));
  }

  /** A comment opens with a mark. */
  lemma MatchMarks(s: string, m: nat, n: nat)
    requires s != "" && 0 < m == MatchLength(s) && 0 < n <= |s|
    requires n >= m || s[n..] == "\n-->"
    ensures Marks(s[..n]) >= 1
  {
    if s[0] == '<' {
      assert s[..n][0] == '<';
    } else {
      assert s[0] == '\n' && s[1] == '<';
      assert n < m ==> s[n] == s[n..][0];
      assert s[..n][1..][0] == '<';
    }
  }

  /** What a reader sees has no more marks than the text, and fewer when anything was stripped. */
  lemma {:induction false} ShownMarks(b: string)
    ensures Marks(Shown(b)) <= Marks(b)
    ensures !Closed(b) ==> Marks(Shown(b)) < Marks(b)
    decreases |b|
  {
    if b != "" {
      var m := MatchLength(b + "\n-->");
      if m == 0 {
        ShownMarks(b[1..]);
        ShownHere(b);
        assert ([b[0]] + Shown(b[1..]))[1..] == Shown(b[1..]);
      } else {
        ClosingMarks(b, m);
        if m <= |b| { ShownMarks(b[m..]); }
      }
    }
  }

  lemma ClosingMarks(b: string, m: nat)
    requires b != "" && 0 < m == MatchLength(b + "\n-->")
    ensures if m <= |b| then Marks(b[m..]) < Marks(b) else Marks(b) >= 1
  {
    var n := if m <= |b| then m else |b|;
    var s := b + "\n-->";
    assert s[|b|..] == "\n-->" && s[..n] == b[..n];
    MatchMarks(s, m, n);
    MarksSplit(b, n);
  }

  lemma {:induction false} StripMarks(s: string)
    ensures Marks(StripMeta(s)) <= Marks(s)
    decreases |s|
  {
    if s != "" {
      var m := MatchLength(s);
      if m > 0 {
        StripMarks(s[m..]);
        MarksSplit(s, m);
      } else {
        StripMarks(s[1..]);
        assert ([s[0]] + StripMeta(s[1..]))[1..] == StripMeta(s[1..]);
      }
    }
  }

  lemma MatchExtendsSame(s: string, y: string)
    requires s != "" && MatchLength(s) > 0
    ensures MatchLength(s + y) == MatchLength(s)
  {
    assert (s + y)[0] == s[0];
    TailExtends(s, y);
    if s[0] == '\n' && MarkerLength(s[1..]) > 0 {
      MarkerExtends(s[1..], y);
    } else {
      MarkerExtends(s, y);
    }
  }

  lemma MatchInside(b: string, x: string, m: nat)
    requires b != "" && 0 < m == MatchLength(b + x) <= |b|
    ensures MatchLength(b) > 0
  {
    assert (b + x)[0] == b[0];
    TailExtends(b, x);
    if b[0] == '\n' && MarkerLength(b[1..] + x) > 0 {
      MarkerInside(b[1..], x, m - 1);
    } else {
      MarkerInside(b, x, m);
    }
  }

  /** Readers of the stored content see what deduplication compared, or something with fewer marks. */
  lemma {:induction false} ComparedMarks(c: string)
    ensures Shown(c) == StripMeta(c) || Marks(Shown(c)) < Marks(StripMeta(c))
    decreases |c|
  {
    if c != "" {
      var m := MatchLength(c);
      if m > 0 {
        MatchExtendsSame(c, "\n-->");
        ComparedMarks(c[m..]);
      } else if MatchLength(c + "\n-->") == 0 {
        ComparedMarks(c[1..]);
        ShownHere(c);
        ConsMarks(c[0], Shown(c[1..]), StripMeta(c[1..]));
      } else {
        if MatchLength(c + "\n-->") <= |c| { MatchInside(c, "\n-->", MatchLength(c + "\n-->")); }
        OpenHead(c);
      }
    }
  }

  lemma ConsMarks(c: char, s: string, t: string)
    ensures Marks([c] + s) - Marks([c] + t) == Marks(s) - Marks(t)
  {
    assert ([c] + s)[1..] == s && ([c] + t)[1..] == t;
  }

  /** The open comment at the head of `c` stays when `c` alone is stripped. */
  lemma OpenHead(c: string)
    requires c != "" && MatchLength(c) == 0 && MatchLength(c + "\n-->") > |c|
    ensures Marks(StripMeta(c)) >= 1 && Shown(c) == ""
  {
    OpensWithMark(c + "\n-->");
    assert (c + "\n-->")[0] == c[0];
    if c[0] == '<' {
      KeptMark(c);
    } else {
      assert |c| > 1 && (c + "\n-->")[1] == c[1];
      KeptMark(c[1..]);
      KeptBefore(c);
    }
  }

  lemma OpensWithMark(s: string)
    requires s != "" && MatchLength(s) > 0
    ensures s[0] == '<' || (|s| > 1 && s[0] == '\n' && s[1] == '<')
  {
  }

  lemma KeptMark(s: string)
    requires s != "" && s[0] == '<' && MarkerLength(s) == 0
    ensures Marks(StripMeta(s)) >= 1
  {
    assert StripMeta(s)[0] == '<';
  }

  lemma KeptBefore(s: string)
    requires s != "" && MatchLength(s) == 0
    ensures Marks(StripMeta(s)) >= Marks(StripMeta(s[1..]))
  {
    assert StripMeta(s) == [s[0]] + StripMeta(s[1..]);
    assert StripMeta(s)[1..] == StripMeta(s[1..]);
  }

  // ---------- the pieces of a rewritten content ----------

  /** A text comes apart into pieces each of which shows fewer marks. */
  lemma {:induction false} PieceMarks(pre: string, b: string, c: string, k: int, p: string)
    requires Written(c, k) && p in Glue(pre, SplitEntries(b + c))
    ensures Marks(StripMeta(p)) <= Marks(pre) + Marks(b)
    ensures |SplitEntries(b + c)| > 1 ==> Marks(StripMeta(p)) < Marks(pre) + Marks(b)
    decreases |b|
  {
    WrittenSolid(c, k);
    if b == "" {
      assert b + c == c;
      WrittenPiece(pre, c, k, p);
    } else if DELIMITER <= b {
      PieceAfterDelimiter(pre, b, c, k, p);
    } else if DELIMITER <= b + c {
      Straddles(b, c);
      StraddledPiece(pre, b, c, k, p);
    } else {
      MoveOver(pre, b, c);
      PieceMarks(pre + [b[0]], b[1..], c, k, p);
    }
  }

  /** A written comment stays in one piece. */
  lemma WrittenPiece(pre: string, c: string, k: int, p: string)
    requires Written(c, k) && p in Glue(pre, SplitEntries(c))
    ensures Marks(StripMeta(p)) <= Marks(pre)
    ensures |SplitEntries(c)| == 1
  {
    WrittenSolid(c, k);
    assert c + After(None) == c;
    SolidAfter(pre, c, None);
    SolidAfter("", c, None);
    WrittenShows(pre, c, k);
    ShownMarks(pre);
    assert p == pre + c;
  }

  /** The first character may be counted with what stands in front. */
  lemma MoveOver(pre: string, b: string, c: string)
    requires b != "" && !(DELIMITER <= b + c)
    ensures Glue(pre, SplitEntries(b + c)) == Glue(pre + [b[0]], SplitEntries(b[1..] + c))
    ensures |SplitEntries(b + c)| == |SplitEntries(b[1..] + c)|
    ensures Marks(pre + [b[0]]) + Marks(b[1..]) == Marks(pre) + Marks(b)
  {
    GlueCons(pre, b + c);
    HeadAndTail(b, c, "");
    MarksConcat(pre, [b[0]]);
    MarksOfChar(b[0]);
  }

  lemma WrittenShows(b: string, c: string, k: int)
    requires Written(c, k)
    ensures StripMeta(b + c) == Shown(b) && StripMeta(c[1..]) == ""
  {
    var conf: string, captured: string :| IsValue(conf) && IsValue(captured) && c == BuildMeta(conf, captured, k);
    BuiltKvShape(conf, captured, k);
    StripBuilt(b, BuiltKv(conf, captured, k), "");
    DroppedReads(conf, captured, k, "");
    NewlineIsInert();
    assert c + "" == c && c[1..] + "" == c[1..] && Shown(b) + "" == Shown(b);
  }

  lemma PieceAfterDelimiter(pre: string, b: string, c: string, k: int, p: string)
    requires Written(c, k) && DELIMITER <= b && p in Glue(pre, SplitEntries(b + c))
    ensures Marks(StripMeta(p)) < Marks(pre) + Marks(b)
    decreases |b|, 0
  {
    var t := b[3..];
    DelimiterBehind(pre, b, t, c);
    MarksSplit(b, 3);
    assert b[..3] == DELIMITER;
    DelimiterMarks();
    if p == pre {
      StripMarks(pre);
    } else {
      assert p in SplitEntries(t + c);
      GlueNothing(SplitEntries(t + c));
      PieceMarks("", t, c, k, p);
    }
  }

  lemma DelimiterMarks()
    ensures Marks(DELIMITER) == 1 && Marks("\n\U{00A7}") == 1
  {
    assert DELIMITER[1..] == "\U{00A7}\n" && DELIMITER[1..][1..] == "\n";
    assert "\n\U{00A7}"[1..] == "\U{00A7}";
  }

  lemma StraddledPiece(pre: string, b: string, c: string, k: int, p: string)
    requires Written(c, k) && b == "\n\U{00A7}" && p in Glue(pre, SplitEntries(b + c))
    ensures Marks(StripMeta(p)) < Marks(pre) + Marks(b)
  {
    StraddleSplits(pre, b, c, k);
    DelimiterMarks();
    StripMarks(pre);
    WrittenShows("", c, k);
    assert p == pre || p == c[1..];
  }

  lemma StraddleSplits(pre: string, b: string, c: string, k: int)
    requires Written(c, k) && b == "\n\U{00A7}"
    ensures Glue(pre, SplitEntries(b + c)) == [pre] + [c[1..]]
  {
    WrittenSolid(c, k);
    StraddleApart(b, c, "");
    assert b + (c + "") == b + c && c[1..] + "" == c[1..];
    GlueDelimiter(pre, b + c, c[1..]);
    SolidSplits(c[1..]);
  }

  lemma SolidSplits(s: string)
    requires Solid(s)
    ensures SplitEntries(s) == [s]
  {
    DelimFreePrefix(s, "\n\U{00A7}");
    SplitSingle(s);
  }

  /** A text that does not come apart when a comment is appended is solid. */
  lemma {:induction false} FreeBefore(b: string, c: string)
    requires c != "" && c[0] == '\n' && DelimFree(b + c)
    ensures Solid(b)
    decreases |b|
  {
    var mark := b + "\n\U{00A7}";
    if b == "" {
      EmptySolid();
    } else {
      assert (b + c)[1..] == b[1..] + c && mark[1..] == b[1..] + "\n\U{00A7}";
      FreeBefore(b[1..], c);
      assert !(DELIMITER <= mark) by { SameStart(b, c); }
    }
  }

  lemma SameStart(b: string, c: string)
    requires b != "" && c != "" && c[0] == '\n'
    ensures DELIMITER <= b + "\n\U{00A7}" ==> DELIMITER <= b + c
  {
    var mark := b + "\n\U{00A7}";
    if |b| >= 2 {
      assert mark[..3] == (b + c)[..3];
    } else {
      assert mark[1] == '\n' && DELIMITER[1] == '\U{00A7}';
    }
  }

  lemma SingleIsSolid(b: string, c: string)
    requires c != "" && c[0] == '\n' && |SplitEntries(b + c)| == 1
    ensures Solid(b)
  {
    SplitIsParts(b + c);
    JoinSplit(b + c);
    FreeBefore(b, c);
  }

  /** Whatever a reinforcement leaves of an unsettled content has fewer marks than the content. */
  lemma RewrittenMarks(b: string, c: string, k: int, p: string)
    requires Written(c, k) && p in SplitEntries(b + c)
    requires !(Solid(b) && Closed(b))
    ensures Marks(StripMeta(p)) < Marks(b)
  {
    GlueNothing(SplitEntries(b + c));
    PieceMarks("", b, c, k, p);
    if |SplitEntries(b + c)| == 1 {
      WrittenSolid(c, k);
      SingleIsSolid(b, c);
      JoinSplit(b + c);
      assert p == b + c;
      WrittenShows(b, c, k);
      ShownMarks(b);
    }
  }

  /** A comment ends the last piece, so what is appended behind it splits off. */
  lemma {:induction false} SplitsBehind(pre: string, b: string, c: string, k: int, r: string)
    requires Written(c, k)
    ensures Glue(pre, SplitEntries(b + (c + (DELIMITER + r)))) == Glue(pre, SplitEntries(b + c)) + SplitEntries(r)
    decreases |b|
  {
    WrittenSolid(c, k);
    if b == "" {
      BehindNothing(pre, c, k, r);
    } else if DELIMITER <= b {
      BehindDelimiter(pre, b, c, k, r);
    } else if DELIMITER <= b + c {
      Straddles(b, c);
      BehindStraddle(pre, b, c, k, r);
    } else {
      SplitsBehind(pre + [b[0]], b[1..], c, k, r);
      SameThree(b, c, DELIMITER + r);
      GlueTwo(pre, b, c + (DELIMITER + r));
      GlueTwo(pre, b, c);
    }
  }

  lemma GlueTwo(pre: string, b: string, x: string)
    requires b != "" && !(DELIMITER <= b + x)
    ensures Glue(pre, SplitEntries(b + x)) == Glue(pre + [b[0]], SplitEntries(b[1..] + x))
  {
    GlueCons(pre, b + x);
    HeadAndTail(b, x, "");
  }

  lemma BehindNothing(pre: string, c: string, k: int, r: string)
    requires Written(c, k)
    ensures Glue(pre, SplitEntries("" + (c + (DELIMITER + r)))) == Glue(pre, SplitEntries("" + c)) + SplitEntries(r)
  {
    WrittenSolid(c, k);
    assert "" + (c + (DELIMITER + r)) == c + (DELIMITER + r) && "" + c == c && c + After(None) == c;
    SolidAfter(pre, c, Some(r));
    SolidAfter(pre, c, None);
    assert [pre + c] + [] == [pre + c];
  }

  lemma SameThree(b: string, c: string, y: string)
    requires b != "" && |c| >= 3
    ensures DELIMITER <= b + (c + y) ==> DELIMITER <= b + c
  {
    assert (b + (c + y))[..3] == (b + c)[..3];
  }

  lemma BehindDelimiter(pre: string, b: string, c: string, k: int, r: string)
    requires Written(c, k) && DELIMITER <= b
    ensures Glue(pre, SplitEntries(b + (c + (DELIMITER + r)))) == Glue(pre, SplitEntries(b + c)) + SplitEntries(r)
    decreases |b|, 0
  {
    var t, x := b[3..], c + (DELIMITER + r);
    DelimiterBehind(pre, b, t, x);
    DelimiterBehind(pre, b, t, c);
    SplitsBehind("", t, c, k, r);
    GlueNothing(SplitEntries(t + x));
    GlueNothing(SplitEntries(t + c));
    Regrouped(pre, SplitEntries(t + c), SplitEntries(r));
  }

  lemma Regrouped(p: string, ps: seq<string>, qs: seq<string>)
    ensures [p] + (ps + qs) == ([p] + ps) + qs
  {
  }

  lemma BehindStraddle(pre: string, b: string, c: string, k: int, r: string)
    requires Written(c, k) && b == "\n\U{00A7}"
    ensures Glue(pre, SplitEntries(b + (c + (DELIMITER + r)))) == Glue(pre, SplitEntries(b + c)) + SplitEntries(r)
  {
    WrittenSolid(c, k);
    StraddleSplits(pre, b, c, k);
    StraddleApart(b, c, DELIMITER + r);
    GlueDelimiter(pre, b + (c + (DELIMITER + r)), c[1..] + (DELIMITER + r));
    SplitFirst(c[1..], r);
    Regrouped(pre, [c[1..]], SplitEntries(r));
  }

  lemma StraddleApart(b: string, c: string, y: string)
    requires b == "\n\U{00A7}" && c != "" && c[0] == '\n'
    ensures b + (c + y) == DELIMITER + (c[1..] + y)
  {
  }

  lemma BehindComment(b: string, c: string, k: int, r: string)
    requires Written(c, k)
    ensures SplitEntries((b + c) + (DELIMITER + r)) == SplitEntries(b + c) + SplitEntries(r)
  {
    SplitsBehind("", b, c, k, r);
    Associates(b, c, DELIMITER + r);
    GlueNothing(SplitEntries((b + c) + (DELIMITER + r)));
    GlueNothing(SplitEntries(b + c));
  }

  // ---------- oracles that tell the content from everything else ----------

  function Telling(e: string): Oracles {
    Oracles(s => if s == "" then "" else if s == e then "p" else "q", s => {}, s => ParseInt(s), d => IntText(d))
  }

  lemma TellingLawful(e: string)
    ensures Lawful(Telling(e))
  {
    var o := Telling(e);
    forall d ensures DateSurvives(o, d) {
      IntTextIsValue(d);
      ParseIntRoundTrip(d);
    }
  }

  const P := Profile("p", {})
  const Q := Profile("q", {})
  const N := Profile("", {})

  lemma Told(e: string, w: string)
    ensures ProfileOf(Telling(e), w) == if Blank(w) then N else if Essence(w) == e then P else Q
  {
  }

  lemma Likeness()
    ensures Similar(P, P, DEDUP_THRESHOLD) && Similar(Q, Q, DEDUP_THRESHOLD)
    ensures !Similar(P, Q, DEDUP_THRESHOLD) && !Similar(P, N, DEDUP_THRESHOLD)
  {
    LetterMissing("q", "p", 'p');
    LetterMissing("p", "q", 'q');
  }

  lemma {:induction false} NoneLikeP(ps: seq<Profile>)
    requires forall i :: 0 <= i < |ps| ==> ps[i] == Q || ps[i] == N
    ensures FirstSimilar(P, ps) == None
    ensures FirstSimilar(P, ps + [P]) == Some(|ps|)
    decreases |ps|
  {
    Likeness();
    if ps == [] {
      assert ps + [P] == [P];
    } else {
      NoneLikeP(ps[1..]);
      assert (ps + [P])[1..] == ps[1..] + [P];
      assert (ps + [P])[0] == ps[0];
    }
  }

  // ---------- the audit finds a repeated entry ----------

  /** The audit reports a duplicate in this file. */
  ghost predicate Finds(o: Oracles, text: string) {
    forall cs :: MemoryAudit.AreClusters(Profiles(o, AuditParts(SplitEntries(text))), DEDUP_THRESHOLD, cs) ==> cs != []
  }

  lemma EdgeFinds(o: Oracles, text: string, ps: seq<Profile>, i: nat, j: nat)
    requires ps == Profiles(o, AuditParts(SplitEntries(text)))
    requires i < j < |ps| && Similar(ps[i], ps[j], DEDUP_THRESHOLD)
    ensures Finds(o, text)
  {
    assert MemoryAudit.Edge(ps, DEDUP_THRESHOLD, i, j);
    forall cs | MemoryAudit.AreClusters(ps, DEDUP_THRESHOLD, cs) ensures cs != [] {
      MemoryAudit.NoClusterIffNoEdge(ps, DEDUP_THRESHOLD, cs);
    }
  }

  lemma {:induction false} AuditConcat(ps: seq<string>, qs: seq<string>)
    ensures AuditParts(ps + qs) == AuditParts(ps) + AuditParts(qs)
    decreases |ps|
  {
    if ps == [] {
      assert ps + qs == qs;
      assert AuditParts(ps) + AuditParts(qs) == AuditParts(qs);
    } else {
      assert (ps + qs)[1..] == ps[1..] + qs && (ps + qs)[0] == ps[0];
      AuditConcat(ps[1..], qs);
      AuditConsOrNot(ps[0], ps[1..], qs);
    }
  }

  lemma AuditConsOrNot(p: string, rest: seq<string>, qs: seq<string>)
    ensures var head := if Strip(StripMeta(p)) != "" then [p] else [];
            head + (AuditParts(rest) + AuditParts(qs)) == (head + AuditParts(rest)) + AuditParts(qs)
  {
  }

  lemma {:induction false} AuditSees(ps: seq<string>, w: string)
    requires w in ps && Strip(StripMeta(w)) != ""
    ensures w in AuditParts(ps)
    decreases |ps|
  {
    if ps[0] != w {
      assert w in ps[1..];
      AuditSees(ps[1..], w);
    }
  }

  /** A text that stands in the file twice and shows something is found. */
  lemma TwiceFinds(o: Oracles, text: string, ps: seq<string>, w: string)
    requires SplitEntries(text) == ps + ps && w in ps
    requires Strip(StripMeta(w)) != "" && Similar(ProfileOf(o, StripMeta(w)), ProfileOf(o, StripMeta(w)), DEDUP_THRESHOLD)
    ensures Finds(o, text)
  {
    AuditConcat(ps, ps);
    AuditSees(ps, w);
    var a := AuditParts(ps);
    var i :| 0 <= i < |a| && a[i] == w;
    assert (a + a)[i] == w && (a + a)[|a| + i] == w;
    EdgeFinds(o, text, Profiles(o, a + a), i, |a| + i);
  }

  // ---------- the run ----------

  const DAY := 0

  function Again(c: string): Op { AddOp(c, "normal", DAY) }

  function FreshComment(o: Oracles): string { BuildMeta("normal", o.isoDate(DAY), 0) }

  function NextComment(o: Oracles): string { BuildMeta("normal", o.isoDate(DAY), 1) }

  lemma CommentsWritten(o: Oracles)
    requires Lawful(o)
    ensures IsValue("normal") && IsValue(o.isoDate(DAY))
    ensures Written(FreshComment(o), 0) && Written(NextComment(o), 1)
  {
    assert DateSurvives(o, DAY);
    NormalIsValue();
  }

  /** The stored content, with or without its final line break, reads and is rewritten as expected. */
  lemma StoredReads(o: Oracles, c: string, rest: string)
    requires Lawful(o) && (rest == "" || rest == "\n")
    ensures var p := (c + FreshComment(o)) + rest;
            && StripMeta(p) == Shown(c) + rest && ProfileOf(o, StripMeta(p)) == ProfileOf(o, Shown(c))
            && BumpEntry(o, p, DAY) == Some(Next(c) + NextComment(o))
  {
    var p := (c + FreshComment(o)) + rest;
    var w := Shown(c);
    CommentsWritten(o);
    SpelledOut(c + FreshComment(o), c, FreshComment(o));
    TaggedReads(c, "normal", o.isoDate(DAY), 0, c + FreshComment(o), rest);
    assert w + "" == w;
    StripFinalSpace(w, '\n');
    ProfileIgnoresEnds(o, w + rest, w);
    FinalBreakGoes(w);
    assert DateSurvives(o, DAY);
    ParseIntRoundTrip(0);
    LaterBump(o, p, Next(c), "normal", o.isoDate(DAY), DAY, IntText(0), 0, DAY);
  }

  lemma SpelledOut(p: string, b: string, c: string)
    requires p == b + c
    ensures Spells(p, b, c)
  {
  }

  lemma StoredSolid(o: Oracles, c: string, rest: string)
    requires Lawful(o) && Solid(c) && (rest == "" || rest == "\n")
    ensures Solid((c + FreshComment(o)) + rest)
  {
    CommentsWritten(o);
    BuiltKvShape("normal", o.isoDate(DAY), 0);
    CommentSolid(c, BuiltKv("normal", o.isoDate(DAY), 0), rest);
    Associates(c, FreshComment(o), rest);
  }

  /** A content that deduplication can read, in its cleaned form. */
  predicate Usable(o: Oracles, c: string) {
    Clean(c) == c != "" && Needle(o, c) == P
  }

  function Stored(o: Oracles, c: string): string { (c + FreshComment(o)) + "\n" }

  lemma AddsNew(o: Oracles, limit: nat, text: string, c: string, text': string)
    requires Usable(o, c) && FirstSimilar(P, Profiles(o, SplitEntries(text))) == None
    requires text' == Appended(text, Stored(o, c)) && |text'| <= limit
    ensures StepText(o, limit, text, Again(c)) == text'
  {
    AddIsAppend(o, limit, text, c, "normal", DAY);
  }

  lemma AddsAgain(o: Oracles, limit: nat, text: string, c: string, i: nat, q: string, text': string)
    requires Usable(o, c) && FirstSimilar(P, Profiles(o, SplitEntries(text))) == Some(i) && i < |SplitEntries(text)|
    requires BumpEntry(o, SplitEntries(text)[i], DAY) == Some(q) && text' == Join(SplitEntries(text)[i := q])
    ensures StepText(o, limit, text, Again(c)) == text'
  {
    assert AddCleaned(o, limit, text, Clean(c), "normal", DAY)
        == AddChosen(o, limit, text, Some(i), NewBlock(o, c, "normal", DAY), DAY);
  }

  lemma AppendsTo(text: string, s: string, block: string)
    requires s != "" && !IsSpace(s[|s| - 1]) && (text == s || text == s + "\n")
    ensures Appended(text, block) == s + (DELIMITER + block)
  {
    if text == s + "\n" { assert text[..|text| - 1] == s; }
    assert Rstrip(s) == s;
    StripNonBlank(text);
  }

  lemma EndsInComment(b: string, c: string, k: int)
    requires Written(c, k)
    ensures b + c != "" && !IsSpace((b + c)[|b + c| - 1])
  {
    var conf: string, captured: string :| IsValue(conf) && IsValue(captured) && c == BuildMeta(conf, captured, k);
    CommentEnds(BuiltKv(conf, captured, k));
  }

  lemma FirstAdded(o: Oracles, limit: nat, c: string)
    requires Lawful(o) && Usable(o, c) && |Stored(o, c)| <= limit
    ensures StepText(o, limit, "", Again(c)) == Stored(o, c)
  {
    EmptyHasNoDuplicate(o, P);
    assert Strip("") == "";
    AddsNew(o, limit, "", c, Stored(o, c));
  }

  lemma OnePart(o: Oracles, c: string)
    requires Lawful(o) && Solid(c)
    ensures SplitEntries(Stored(o, c)) == [Stored(o, c)]
    ensures Profiles(o, SplitEntries(Stored(o, c))) == [ProfileOf(o, Shown(c))]
  {
    StoredSolid(o, c, "\n");
    DelimFreePrefix(Stored(o, c), "\n\U{00A7}");
    SplitSingle(Stored(o, c));
    StoredReads(o, c, "\n");
  }

  /** A content stored as something else is not found when it comes again. */
  lemma ShownOtherwise(o: Oracles, limit: nat, c: string)
    requires Lawful(o) && Usable(o, c) && Solid(c) && ProfileOf(o, Shown(c)) == Q && Strip(Shown(c)) != ""
    requires limit >= 2 * |Stored(o, c)| + 3
    ensures Finds(o, RunText(o, limit, "", [Again(c), Again(c)]))
  {
    var core := c + FreshComment(o);
    var t2 := core + (DELIMITER + Stored(o, c));
    FirstAdded(o, limit, c);
    OnePart(o, c);
    NoneLikeP([Q]);
    CommentsWritten(o);
    EndsInComment(c, FreshComment(o), 0);
    AppendsTo(Stored(o, c), core, Stored(o, c));
    AddsNew(o, limit, Stored(o, c), c, t2);
    TwoSteps(o, limit, Again(c), Again(c), Stored(o, c), t2);
    TwoStored(o, c, core, t2);
  }

  lemma TwoStored(o: Oracles, c: string, core: string, t2: string)
    requires Lawful(o) && Solid(c) && ProfileOf(o, Shown(c)) == Q && Strip(Shown(c)) != ""
    requires core == c + FreshComment(o) && t2 == core + (DELIMITER + Stored(o, c))
    ensures Finds(o, t2)
  {
    StoredSolid(o, c, "");
    assert core + "" == core;
    SplitFirst(core, Stored(o, c));
    OnePart(o, c);
    StoredReads(o, c, "");
    StoredReads(o, c, "\n");
    assert Shown(c) + "" == Shown(c);
    StripFinalSpace(Shown(c), '\n');
    var ps := [core] + [Stored(o, c)];
    AuditsBoth(ps);
    Likeness();
    EdgeFinds(o, t2, Profiles(o, ps), 0, 1);
  }

  // ---------- a content that changes when it is reinforced ----------

  lemma ProfileAt(o: Oracles, ps: seq<string>, i: nat)
    requires i < |ps|
    ensures Profiles(o, ps)[i] == ProfileOf(o, StripMeta(ps[i]))
  {
  }

  lemma PiecesUnlike(o: Oracles, ps: seq<string>)
    requires forall p :: p in ps ==> ProfileOf(o, StripMeta(p)) == Q || ProfileOf(o, StripMeta(p)) == N
    ensures FirstSimilar(P, Profiles(o, ps)) == None
    ensures FirstSimilar(P, Profiles(o, ps) + [P]) == Some(|ps|)
  {
    forall i | 0 <= i < |ps| ensures Profiles(o, ps)[i] == Q || Profiles(o, ps)[i] == N {
      assert ps[i] in ps;
      ProfileAt(o, ps, i);
    }
    NoneLikeP(Profiles(o, ps));
  }

  lemma ProfilesSnocOf(o: Oracles, ps: seq<string>, p: string)
    ensures Profiles(o, ps + [p]) == Profiles(o, ps) + [ProfileOf(o, StripMeta(p))]
  {
  }

  /** The rewritten content. */
  function Rewritten(o: Oracles, c: string): string { Next(c) + NextComment(o) }

  predicate Broken(o: Oracles, c: string) {
    && Usable(o, c) && Solid(c) && ProfileOf(o, Shown(c)) == P
    && forall p :: p in SplitEntries(Rewritten(o, c)) ==>
         ProfileOf(o, StripMeta(p)) == Q || ProfileOf(o, StripMeta(p)) == N
  }

  lemma SecondAdd(o: Oracles, limit: nat, c: string)
    requires Lawful(o) && Broken(o, c)
    ensures StepText(o, limit, Stored(o, c), Again(c)) == Rewritten(o, c)
  {
    OnePart(o, c);
    LikeP();
    StoredReads(o, c, "\n");
    OneReplaced(Stored(o, c), Rewritten(o, c));
    AddsAgain(o, limit, Stored(o, c), c, 0, Rewritten(o, c), Rewritten(o, c));
  }

  lemma LikeP()
    ensures FirstSimilar(P, [P]) == Some(0)
  {
    Likeness();
  }

  lemma OneReplaced(p: string, q: string)
    ensures [p][0 := q] == [q] && Join([q]) == q
  {
  }

  lemma ThirdAdd(o: Oracles, limit: nat, c: string)
    requires Lawful(o) && Broken(o, c) && limit >= |Rewritten(o, c)| + |Stored(o, c)| + 3
    ensures StepText(o, limit, Rewritten(o, c), Again(c)) == Rewritten(o, c) + (DELIMITER + Stored(o, c))
  {
    PiecesUnlike(o, SplitEntries(Rewritten(o, c)));
    CommentsWritten(o);
    EndsInComment(Next(c), NextComment(o), 1);
    AppendsTo(Rewritten(o, c), Rewritten(o, c), Stored(o, c));
    AddsNew(o, limit, Rewritten(o, c), c, Rewritten(o, c) + (DELIMITER + Stored(o, c)));
  }

  lemma ThirdSplits(o: Oracles, c: string)
    requires Lawful(o) && Solid(c)
    ensures SplitEntries(Rewritten(o, c) + (DELIMITER + Stored(o, c))) == SplitEntries(Rewritten(o, c)) + [Stored(o, c)]
    ensures SplitEntries(Rewritten(o, c) + (DELIMITER + Rewritten(o, c))) == SplitEntries(Rewritten(o, c)) + SplitEntries(Rewritten(o, c))
  {
    CommentsWritten(o);
    BehindComment(Next(c), NextComment(o), 1, Stored(o, c));
    BehindComment(Next(c), NextComment(o), 1, Rewritten(o, c));
    OnePart(o, c);
  }

  lemma FourthAdd(o: Oracles, limit: nat, c: string)
    requires Lawful(o) && Broken(o, c)
    ensures StepText(o, limit, Rewritten(o, c) + (DELIMITER + Stored(o, c)), Again(c))
            == Rewritten(o, c) + (DELIMITER + Rewritten(o, c))
  {
    var q, t3 := Rewritten(o, c), Rewritten(o, c) + (DELIMITER + Stored(o, c));
    var ps := SplitEntries(q);
    ThirdSplits(o, c);
    StoredReads(o, c, "\n");
    ProfilesSnocOf(o, ps, Stored(o, c));
    PiecesUnlike(o, ps);
    JoinSplit(q);
    JoinLast(ps, q);
    ReplaceLast(ps, Stored(o, c), q);
    AddsAgain(o, limit, t3, c, |ps|, q, q + (DELIMITER + q));
  }

  lemma ReplaceLast(ps: seq<string>, p: string, q: string)
    ensures (ps + [p])[|ps| := q] == ps + [q]
  {
  }

  lemma RunSnoc(o: Oracles, limit: nat, ops: seq<Op>, op: Op)
    ensures RunText(o, limit, "", ops + [op]) == StepText(o, limit, RunText(o, limit, "", ops), op)
  {
    assert (ops + [op])[..|ops|] == ops;
  }

  lemma FourSteps(o: Oracles, limit: nat, op: Op, t1: string, t2: string, t3: string, t4: string)
    requires StepText(o, limit, "", op) == t1 && StepText(o, limit, t1, op) == t2
    requires StepText(o, limit, t2, op) == t3 && StepText(o, limit, t3, op) == t4
    ensures RunText(o, limit, "", [op, op, op, op]) == t4
  {
    var two := [op, op];
    TwoSteps(o, limit, op, op, t1, t2);
    RunSnoc(o, limit, two, op);
    RunSnoc(o, limit, two + [op], op);
    assert (two + [op]) + [op] == [op, op, op, op];
  }

  lemma ChangesWhenReinforced(o: Oracles, limit: nat, c: string, w: string)
    requires Lawful(o) && Broken(o, c) && limit >= |Rewritten(o, c)| + |Stored(o, c)| + 3
    requires w in SplitEntries(Rewritten(o, c)) && !Blank(StripMeta(w)) && ProfileOf(o, StripMeta(w)) == Q
    ensures Finds(o, RunText(o, limit, "", [Again(c), Again(c), Again(c), Again(c)]))
  {
    FirstAdded(o, limit, c);
    SecondAdd(o, limit, c);
    ThirdAdd(o, limit, c);
    FourthAdd(o, limit, c);
    var q := Rewritten(o, c);
    FourSteps(o, limit, Again(c), Stored(o, c), q, q + (DELIMITER + Stored(o, c)), q + (DELIMITER + q));
    ThirdSplits(o, c);
    Likeness();
    TwiceFinds(o, q + (DELIMITER + q), SplitEntries(q), w);
  }

  // ---------- every unstable content escapes ----------

  /** Reinforced once, the content shows nothing at all that could be compared. */
  predicate Mute(c: string) {
    forall p :: p in SplitEntries(Next(c) + BuildMeta("normal", IntText(DAY), 1)) ==> Blank(StripMeta(p))
  }

  /** A stable content, or one that a reinforcement turns into entries that show nothing to compare. */
  predicate Agreeing(c: string) {
    Stable(c) || (Shown(c) == StripMeta(c) && Mute(c))
  }

  function Times(c: string, n: nat): seq<Op> { seq(n, i => Again(c)) }

  lemma TwoTimes(c: string)
    ensures Times(c, 2) == [Again(c), Again(c)]
    ensures Times(c, 4) == [Again(c), Again(c), Again(c), Again(c)]
  {
  }

  lemma ToldUsable(c: string, e: string)
    requires e == Essence(StripMeta(c)) && Clean(c) == c != "" && !Stable(c)
    ensures Lawful(Telling(e)) && Usable(Telling(e), c) && Solid(c) && !Blank(Shown(c))
  {
    TellingLawful(e);
    Told(e, StripMeta(c));
    CleanedIsSolid(c);
  }

  lemma MetaSize(conf: string, captured: string, n: nat)
    requires n < 10
    ensures |BuildMeta(conf, captured, n)| == |conf| + |captured| + 48
  {
    assert |"conf"| == 4 && |"captured"| == 8 && |"reinforced"| == 10 && |" "| == 1 && |"="| == 1;
    assert |COMMENT_HEAD| == 16 && |COMMENT_TAIL| == 4;
    assert |Decimal(n)| == 1;
  }

  lemma TellingSizes(e: string)
    ensures |FreshComment(Telling(e))| == |NextComment(Telling(e))| == 55
  {
    assert |"normal"| == 6 && |IntText(DAY)| == 1;
    MetaSize("normal", Telling(e).isoDate(DAY), 0);
    MetaSize("normal", Telling(e).isoDate(DAY), 1);
  }

  /**
   * A content that is not agreeing escapes deduplication: for some oracles, adding nothing but this
   * content, at most four times, leaves entries the audit reports as duplicates.
   */
  lemma UnstableEscapes(c: string, limit: nat) returns (o: Oracles, n: nat)
    requires Clean(c) == c != "" && !Agreeing(c) && limit >= 2 * |c| + 115
    ensures Lawful(o) && n <= 4 && Finds(o, RunText(o, limit, "", Times(c, n)))
  {
    var e := Essence(StripMeta(c));
    o := Telling(e);
    ToldUsable(c, e);
    TwoTimes(c);
    TellingSizes(e);
    if Shown(c) != StripMeta(c) {
      n := 2;
      EscapesAtOnce(o, limit, c, e);
    } else {
      n := 4;
      EscapesLater(o, limit, c, e);
    }
  }

  lemma EscapesAtOnce(o: Oracles, limit: nat, c: string, e: string)
    requires e == Essence(StripMeta(c)) && o == Telling(e) && Lawful(o) && Usable(o, c) && Solid(c)
    requires Shown(c) != StripMeta(c) && !Blank(Shown(c)) && limit >= 2 * |c| + 115 && |FreshComment(o)| == 55
    ensures Finds(o, RunText(o, limit, "", [Again(c), Again(c)]))
  {
    ShownIsOther(c, e);
    ShownOtherwise(o, limit, c);
  }

  lemma EscapesLater(o: Oracles, limit: nat, c: string, e: string)
    requires e == Essence(StripMeta(c)) && o == Telling(e) && Lawful(o) && Usable(o, c) && Solid(c)
    requires Shown(c) == StripMeta(c) && !Agreeing(c)
    requires limit >= 2 * |c| + 115 && |FreshComment(o)| == |NextComment(o)| == 55
    ensures Finds(o, RunText(o, limit, "", [Again(c), Again(c), Again(c), Again(c)]))
  {
    ShownClosed(c);
    var w := RewrittenIsBroken(o, c, e);
    ChangesWhenReinforced(o, limit, c, w);
  }

  lemma ShownIsOther(c: string, e: string)
    requires e == Essence(StripMeta(c)) && Shown(c) != StripMeta(c) && !Blank(Shown(c))
    ensures ProfileOf(Telling(e), Shown(c)) == Q && Strip(Shown(c)) != ""
  {
    ComparedMarks(c);
    EssenceMarks(Shown(c));
    EssenceMarks(StripMeta(c));
    Told(e, Shown(c));
  }

  lemma RewrittenIsBroken(o: Oracles, c: string, e: string) returns (w: string)
    requires e == Essence(StripMeta(c)) && o == Telling(e) && Lawful(o) && Usable(o, c) && Solid(c)
    requires Shown(c) == StripMeta(c) && !Stable(c) && !Mute(c)
    ensures Broken(o, c)
    ensures w in SplitEntries(Rewritten(o, c)) && !Blank(StripMeta(w)) && ProfileOf(o, StripMeta(w)) == Q
  {
    CommentsWritten(o);
    Told(e, Shown(c));
    var b := Next(c);
    BreakMarks(Shown(c));
    EssenceMarks(StripMeta(c));
    forall p | p in SplitEntries(Rewritten(o, c))
      ensures ProfileOf(o, StripMeta(p)) == Q || ProfileOf(o, StripMeta(p)) == N
    {
      RewrittenMarks(b, NextComment(o), 1, p);
      EssenceMarks(StripMeta(p));
      Told(e, StripMeta(p));
    }
    w :| w in SplitEntries(Rewritten(o, c)) && !Blank(StripMeta(w));
    Told(e, StripMeta(w));
  }
}
