/** The visible size of a capped memory file over runs, and revision-checked replacement. */
module MemorySize {
  import opened Common
  import opened Text
  import opened EntryFormat
  import opened Similarity
  import opened MemoryStore
  import opened MemoryEntries
  import opened MemoryRuns
  import opened MemoryCounters

  // ---------- what is visible of a file ----------

  /** What the delimiter before an entry takes: a comment at its head swallows the last line break. */
  function Gap(p: string): nat { if MarkerLength(p) > 0 then 2 else 3 }

  /** Characters visible once comments are stripped, entry by entry. */
  function VisibleParts(ps: seq<string>): nat {
    if ps == [] then 0
    else if |ps| == 1 then |StripMeta(ps[0])|
    else |StripMeta(ps[0])| + (Gap(ps[1]) + VisibleParts(ps[1..]))
  }

  lemma StripDelimiter(r: string)
    ensures |StripMeta(DELIMITER + r)| == Gap(r) + |StripMeta(r)|
  {
    DelimiterChars(r);
    var s, t := DELIMITER + r, "\U{00A7}\n" + r;
    StripBreak(r);
    KeptHead(t, "\n" + r);
    KeptHead(s, t);
  }

  /** A character that neither is an opening bracket nor stands before one is kept. */
  lemma KeptHead(s: string, t: string)
    requires s != "" && s[1..] == t && s[0] != '<' && (t == "" || t[0] != '<')
    ensures |StripMeta(s)| == 1 + |StripMeta(t)|
  {
    assert MarkerLength(s) == 0 && MarkerLength(t) == 0;
  }

  lemma DelimiterChars(r: string)
    ensures (DELIMITER + r)[0] == '\n' && (DELIMITER + r)[1] == '\U{00A7}'
    ensures (DELIMITER + r)[1..] == "\U{00A7}\n" + r
    ensures ("\U{00A7}\n" + r)[1..] == "\n" + r && ("\U{00A7}\n" + r)[0] == '\U{00A7}'
  {
  }

  lemma StripBreak(r: string)
    ensures |StripMeta("\n" + r)| == (if MarkerLength(r) > 0 then 0 else 1) + |StripMeta(r)|
  {
    var s := "\n" + r;
    assert s[0] == '\n' && s[1..] == r;
    if MarkerLength(r) > 0 {
      BreakGoes(s, r, MarkerLength(r) + 1);
    } else {
      assert MarkerLength(s) == 0;
    }
  }

  /** An entry text and what follows it are stripped apart. */
  lemma CoreThen(o: Oracles, p: string, e: Entry, x: string)
    requires Lawful(o) && Sound(e) && Core(o, p, e) && Follows(x)
    ensures StripMeta(p + x) == Shown(e.text) + StripMeta(x)
  {
    if e.tag.Bare? {
      ClosedThen(e.text, x);
      ShownClosed(e.text);
      assert e.text + "" == e.text;
    } else {
      assert DateSurvives(o, e.tag.captured);
      KvShape(o, e.tag);
      SpelledThen(p, e.text, KvOf(o, e.tag), x);
    }
  }

  lemma SpelledThen(p: string, b: string, kv: string, x: string)
    requires NoGt(kv) && Trimmed(kv) && Spells(p, b, Comment(kv))
    ensures StripMeta(p + x) == Shown(b) + StripMeta(x)
  {
    if p == b + Comment(kv) {
      StripBuilt(b, kv, x);
      Associates(b, Comment(kv), x);
    } else {
      DroppedComment(kv, x);
      assert "" + StripMeta(x) == StripMeta(x);
    }
  }

  /** Whether an entry begins with a comment does not depend on what follows it. */
  lemma HeadThen(o: Oracles, p: string, e: Entry, x: string)
    requires Lawful(o) && Sound(e) && Core(o, p, e) && Follows(x)
    ensures MarkerLength(p + x) > 0 <==> MarkerLength(p) > 0
  {
    if e.tag.Bare? {
      BareHead(e.text, x);
      BareHead(e.text, "");
      assert e.text + "" == e.text;
    } else {
      assert DateSurvives(o, e.tag.captured);
      KvShape(o, e.tag);
      SpelledHead(p, e.text, KvOf(o, e.tag), x);
    }
  }

  lemma BareHead(b: string, x: string)
    requires b != "" && Closed(b) && Follows(x)
    ensures MarkerLength(b + x) == 0
  {
    ClosedNoMatch(b, x);
  }

  lemma SpelledHead(p: string, b: string, kv: string, x: string)
    requires NoGt(kv) && Trimmed(kv) && Spells(p, b, Comment(kv))
    ensures MarkerLength(p + x) > 0 <==> MarkerLength(p) > 0
  {
    if MarkerLength(p) > 0 {
      MarkerExtends(p, x);
    } else if p == b + Comment(kv) {
      Associates(b, Comment(kv), x);
      CommentHeads(b, kv, x);
    } else {
      assert Comment(kv)[1..] + "" == p;
      DroppedMatch(kv, "");
    }
  }

  lemma CommentHeads(b: string, kv: string, x: string)
    requires NoGt(kv)
    ensures MarkerLength(b + (Comment(kv) + x)) > 0 <==> MarkerLength(b + Comment(kv)) > 0
  {
    CommentMatches(kv, x);
    CommentMatches(kv, "");
    assert Comment(kv) + "" == Comment(kv);
    if b == "" {
      CommentEnds(kv);
      assert b + (Comment(kv) + x) == Comment(kv) + x && b + Comment(kv) == Comment(kv);
      assert (Comment(kv) + x)[0] == '\n';
    } else {
      MarkerIndependent(b, Comment(kv) + x, Comment(kv));
    }
  }

  lemma ShapesTail(o: Oracles, ps: seq<string>, es: seq<Entry>)
    requires |es| > 1 && ShapesAll(o, ps, es) && AllSound(es)
    ensures ShapesAll(o, ps[1..], es[1..]) && AllSound(es[1..]) && Core(o, ps[0], es[0])
  {
  }

  /** No comment spans entries: what is visible of the file is what is visible of its entries and delimiters. */
  lemma {:induction false} VisibleJoin(o: Oracles, ps: seq<string>, es: seq<Entry>)
    requires Lawful(o) && es != [] && ShapesAll(o, ps, es) && AllSound(es)
    ensures |StripMeta(Join(ps))| == VisibleParts(ps)
    decreases |ps|
  {
    if |ps| > 1 {
      ShapesTail(o, ps, es);
      VisibleJoin(o, ps[1..], es[1..]);
      FirstVisible(o, ps[0], es[0], Join(ps[1..]));
      JoinHead(o, ps[1..], es[1..]);
    }
  }

  lemma FirstVisible(o: Oracles, p: string, e: Entry, r: string)
    requires Lawful(o) && Sound(e) && Core(o, p, e)
    ensures |StripMeta(p + (DELIMITER + r))| == |StripMeta(p)| + (Gap(r) + |StripMeta(r)|)
  {
    DelimiterFollows(r);
    CoreThen(o, p, e, DELIMITER + r);
    StripDelimiter(r);
    CoreShows(o, p, e);
  }

  lemma DelimiterFollows(r: string)
    ensures Follows(DELIMITER + r)
  {
    DelimiterChars(r);
  }

  lemma CoreShows(o: Oracles, p: string, e: Entry)
    requires Lawful(o) && Sound(e) && Core(o, p, e)
    ensures StripMeta(p) == Shown(e.text)
  {
    CoreReads(o, p, e, "");
    assert p + "" == p && Shown(e.text) + "" == Shown(e.text);
  }

  /** The rest of the file begins with a comment exactly when its first entry does. */
  lemma JoinHead(o: Oracles, ps: seq<string>, es: seq<Entry>)
    requires Lawful(o) && es != [] && ShapesAll(o, ps, es) && AllSound(es)
    ensures Gap(Join(ps)) == Gap(ps[0])
  {
    if |ps| > 1 {
      DelimiterFollows(Join(ps[1..]));
      HeadThen(o, ps[0], es[0], DELIMITER + Join(ps[1..]));
    }
  }

  lemma HeldSize(o: Oracles, text: string, es: seq<Entry>)
    requires Lawful(o) && es != [] && Holds(o, text, es) && AllSound(es)
    ensures |StripMeta(text)| == VisibleParts(SplitEntries(text))
  {
    JoinSplit(text);
    VisibleJoin(o, SplitEntries(text), es);
  }

  // ---------- reinforcing ----------

  /** What replacing one entry does to the visible size. */
  lemma {:induction false} ReplacedPart(ps: seq<string>, i: nat, p: string)
    requires i < |ps|
    ensures VisibleParts(ps[i := p]) - VisibleParts(ps)
            == |StripMeta(p)| - |StripMeta(ps[i])| + (if i == 0 then 0 else Gap(p) - Gap(ps[i]))
    decreases i
  {
    var qs := ps[i := p];
    if i == 0 {
      assert qs[1..] == ps[1..];
    } else {
      assert qs[1..] == ps[1..][i - 1 := p];
      assert qs[0] == ps[0];
      ReplacedPart(ps[1..], i - 1, p);
    }
  }

  /** A later entry that begins with a whole comment and shows closed text without a final line break. */
  predicate Swells(ps: seq<string>, i: nat) {
    && 1 <= i < |ps| && MarkerLength(ps[i]) > 0
    && Closed(StripMeta(ps[i])) && EndsInText(StripMeta(ps[i]))
  }

  /**
   * A reinforcement makes the visible text longer exactly when it rewrites such an entry, whose
   * comment had swallowed a line break of the delimiter; and then by that one character.
   */
  lemma ReinforceSize(o: Oracles, text: string, es: seq<Entry>, i: nat, today: int)
    requires Lawful(o) && Holds(o, text, es) && AllSound(es) && i < |es|
    ensures ReinforceAt(o, text, i, today).Some?
    ensures var text' := ReinforceAt(o, text, i, today).value;
            && (|StripMeta(text')| > |StripMeta(text)| <==> Swells(SplitEntries(text), i))
            && |StripMeta(text')| <= |StripMeta(text)| + 1
  {
    var ps := SplitEntries(text);
    var e := Bumped(es[i], today);
    BumpReads(o, ps[i], es[i], today);
    RewrittenSizes(o, text, ps, es, i, e);
    RewrittenPart(o, ps[i], es[i], e);
  }

  lemma RewrittenSizes(o: Oracles, text: string, ps: seq<string>, es: seq<Entry>, i: nat, e: Entry)
    requires Lawful(o) && Holds(o, text, es) && AllSound(es) && i < |es| && ps == SplitEntries(text)
    requires Sound(e) && e.tag.Tagged?
    ensures var p := WholeText(o, e);
            |StripMeta(Join(ps[i := p]))| - |StripMeta(text)|
            == |StripMeta(p)| - |StripMeta(ps[i])| + (if i == 0 then 0 else Gap(p) - Gap(ps[i]))
  {
    var p := WholeText(o, e);
    SetEntry(o, ps, es, i, p, e);
    HeldSize(o, text, es);
    VisibleJoin(o, ps[i := p], es[i := e]);
    ReplacedPart(ps, i, p);
  }

  lemma RewrittenPart(o: Oracles, p: string, e: Entry, e': Entry)
    requires Lawful(o) && Sound(e) && Shape(o, p, e) && Sound(e') && e'.tag.Tagged? && e'.text == Next(e.text)
    ensures var q := WholeText(o, e');
            && |StripMeta(q)| <= |StripMeta(p)|
            && (|StripMeta(q)| == |StripMeta(p)| <==> Closed(StripMeta(p)) && EndsInText(StripMeta(p)))
            && (|StripMeta(q)| == |StripMeta(p)| ==> Gap(q) == 3)
  {
    ShapeReads(o, p, e);
    CoreShows(o, WholeText(o, e'), e');
    RewrittenSize(StripMeta(p), e.text, e'.text);
    if Closed(e'.text) { ClosedHead(o, WholeText(o, e'), e'); }
  }

  /** Rewriting shows less unless everything shown is closed and ends in text. */
  lemma RewrittenSize(shown: string, t: string, next: string)
    requires shown == Shown(t) || shown == Shown(t) + "\n"
    requires next == Next(t)
    ensures |Shown(next)| <= |shown|
    ensures |Shown(next)| == |shown| <==> Closed(shown) && EndsInText(shown)
    ensures |Shown(next)| == |shown| ==> Closed(next)
  {
    ShownClosed(next);
    RewrittenText(shown, Shown(t), next);
  }

  lemma RewrittenText(shown: string, s: string, next: string)
    requires (shown == s || shown == s + "\n") && next == RstripNewlines(s)
    ensures |next| <= |shown| && (|next| == |shown| <==> EndsInText(shown))
    ensures EndsInText(shown) ==> next == shown
  {
    if shown == s + "\n" { assert shown[|shown| - 1] == '\n'; }
  }

  lemma ClosedHead(o: Oracles, p: string, e: Entry)
    requires Lawful(o) && Sound(e) && e.tag.Tagged? && p == WholeText(o, e) && Closed(e.text)
    ensures Gap(p) == 3
  {
    CommentEnds(KvOf(o, e.tag));
    CommentHead(KvOf(o, e.tag), "");
    var c := Comment(KvOf(o, e.tag));
    assert c + "" == c;
    if e.text == "" {
      assert p[0] == c[0];
    } else {
      BareHead(e.text, c);
    }
  }

  // ---------- pruning ----------

  /** Text without a closing bracket stays visible behind any text. */
  lemma {:induction false} StripBehind(q: string, y: string)
    requires NoGt(y)
    ensures StripMeta(q + y) == StripMeta(q) + y
    decreases |q|
  {
    if q == "" {
      NoGtStays(y);
      assert q + y == y;
    } else {
      MatchShrinks(q, y);
      var m := MatchLength(q);
      if m > 0 {
        StripBehind(q[m..], y);
        DropInside(q, y, m);
      } else {
        StripBehind(q[1..], y);
        StripNoMatch(q, y, StripMeta(q[1..]), y);
      }
    }
  }

  lemma {:induction false} NoGtStays(s: string)
    requires NoGt(s)
    ensures StripMeta(s) == s
    decreases |s|
  {
    if s != "" {
      NoGtStays(s[1..]);
      assert MatchLength(s) == 0;
      assert [s[0]] + s[1..] == s;
    }
  }

  lemma {:induction false} RstripDrops(s: string)
    ensures forall k :: |Rstrip(s)| <= k < |s| ==> IsSpace(s[k])
    decreases |s|
  {
    if s != "" && IsSpace(s[|s| - 1]) {
      var t := s[..|s| - 1];
      RstripDrops(t);
      assert forall k :: 0 <= k < |t| ==> t[k] == s[k];
    }
  }

  lemma RstripShows(s: string)
    ensures |StripMeta(Rstrip(s))| <= |StripMeta(s)|
  {
    var r := Rstrip(s);
    RstripDrops(s);
    StripBehind(r, s[|r|..]);
    assert r + s[|r|..] == s;
  }

  lemma {:induction false} LstripShows(s: string)
    ensures |StripMeta(Lstrip(s))| <= |StripMeta(s)|
    decreases |s|
  {
    if s != "" && IsSpace(s[0]) {
      LstripShows(s[1..]);
      SpaceHead(s);
    }
  }

  lemma SpaceHead(s: string)
    requires s != "" && IsSpace(s[0])
    ensures |StripMeta(s[1..])| <= |StripMeta(s)|
  {
    if MatchLength(s) > 0 {
      BreakGoes(s, s[1..], MatchLength(s));
    }
  }

  lemma BreakGoes(s: string, t: string, m: nat)
    requires s != "" && IsSpace(s[0]) && s[1..] == t && 0 < m == MatchLength(s)
    ensures StripMeta(s) == StripMeta(t)
  {
    assert s[0] == '\n' && MarkerLength(t) == m - 1 > 0;
    assert t[0] == '<' && MatchLength(t) == m - 1;
    assert s[m..] == t[m - 1..];
  }

  /** Stripping a file and ending it with a line break adds at most that break to what is visible. */
  lemma StripShows(s: string)
    ensures |StripMeta(Strip(s) + "\n")| <= |StripMeta(s)| + 1
  {
    LstripShows(s);
    RstripShows(Lstrip(s));
    StripBehind(Strip(s), "\n");
  }

  lemma {:induction false} VisibleSnoc(ps: seq<string>, p: string)
    requires ps != []
    ensures VisibleParts(ps + [p]) == VisibleParts(ps) + (Gap(p) + |StripMeta(p)|)
    decreases |ps|
  {
    var qs := ps + [p];
    assert qs[1..] == ps[1..] + [p];
    if |ps| == 1 {
      assert qs[1..] == [p];
    } else {
      VisibleSnoc(ps[1..], p);
      assert qs[1] == ps[1];
    }
  }

  /** Every dropped entry takes its delimiter with it, unless nothing is left. */
  lemma {:induction false} KeepSize(o: Oracles, ps: seq<string>, today: int, maxAge: int)
    requires KeepParts(o, ps, today, maxAge).Some?
    ensures var kept := KeepParts(o, ps, today, maxAge).value;
            && |kept| <= |ps| && VisibleParts(kept) <= VisibleParts(ps)
            && (|kept| < |ps| && kept != [] ==> VisibleParts(kept) + 2 <= VisibleParts(ps))
    decreases |ps|
  {
    if ps != [] {
      var n := |ps| - 1;
      var init := KeepParts(o, ps[..n], today, maxAge).value;
      KeepSize(o, ps[..n], today, maxAge);
      LastApart(ps);
      if n > 0 { VisibleSnoc(ps[..n], ps[n]); }
      LastKept(init, ps[n]);
    }
  }

  lemma LastKept(init: seq<string>, p: string)
    ensures VisibleParts(init + [p]) == if init == [] then |StripMeta(p)| else VisibleParts(init) + (Gap(p) + |StripMeta(p)|)
  {
    if init == [] {
      assert init + [p] == [p];
    } else {
      VisibleSnoc(init, p);
    }
  }

  /** A prune leaves the file alone, or writes what it kept, stripped and ended with a line break. */
  lemma PruneCases(o: Oracles, text: string, today: int, maxAge: int)
    ensures PruneText(o, text, today, maxAge) == text || Prunes(o, text, today, maxAge)
  {
    KeepIsShorter(o, SplitEntries(text), today, maxAge);
  }

  predicate Prunes(o: Oracles, text: string, today: int, maxAge: int) {
    var r := KeepParts(o, SplitEntries(text), today, maxAge);
    && maxAge > 0 && Strip(text) != "" && r.Some? && |r.value| < |SplitEntries(text)|
    && PruneText(o, text, today, maxAge) == Ended(Strip(Join(r.value)))
  }

  lemma PruneSize(o: Oracles, text: string, es: seq<Entry>, today: int, maxAge: int)
    requires Lawful(o) && Holds(o, text, es) && AllSound(es)
    ensures |StripMeta(PruneText(o, text, today, maxAge))| <= |StripMeta(text)|
  {
    PruneCases(o, text, today, maxAge);
    if Prunes(o, text, today, maxAge) {
      assert Strip("") == "";
      PrunedSize(o, text, es, today, maxAge, KeepParts(o, SplitEntries(text), today, maxAge).value);
    }
  }

  lemma PrunedSize(o: Oracles, text: string, es: seq<Entry>, today: int, maxAge: int, kept: seq<string>)
    requires Lawful(o) && es != [] && Holds(o, text, es) && AllSound(es) && maxAge > 0
    requires KeepParts(o, SplitEntries(text), today, maxAge) == Some(kept) && |kept| < |SplitEntries(text)|
    ensures |StripMeta(Ended(Strip(Join(kept))))| <= |StripMeta(text)|
  {
    KeepHolds(o, SplitEntries(text), es, today, maxAge);
    if kept != [] { KeptSize(o, text, SplitEntries(text), es, today, maxAge, kept); }
    EndedSize(kept, StripMeta(text));
  }

  function Ended(t: string): string { if t != "" then t + "\n" else t }

  lemma EndedSize(kept: seq<string>, shown: string)
    requires kept != [] ==> |StripMeta(Join(kept))| + 2 <= |shown|
    ensures |StripMeta(Ended(Strip(Join(kept))))| <= |shown|
  {
    NewlineIsInert();
    if kept == [] {
      assert Strip("") == "";
    } else {
      StripShows(Join(kept));
    }
  }

  lemma KeptSize(o: Oracles, text: string, ps: seq<string>, es: seq<Entry>, today: int, maxAge: int, kept: seq<string>)
    requires Lawful(o) && es != [] && Holds(o, text, es) && AllSound(es) && ps == SplitEntries(text)
    requires KeepParts(o, ps, today, maxAge) == Some(kept) && kept != [] && |kept| < |ps|
    requires ShapesAll(o, kept, KeepEntries(es, today, maxAge))
    ensures |StripMeta(Join(kept))| + 2 <= |StripMeta(text)|
  {
    KeepSize(o, ps, today, maxAge);
    KeepSound(es, today, maxAge);
    HeldSize(o, text, es);
    VisibleJoin(o, kept, KeepEntries(es, today, maxAge));
  }

  // ---------- steps ----------

  /** The step reinforces an entry that grows by it. */
  predicate Overfills(o: Oracles, text: string, op: Op) {
    && op.AddOp? && Clean(op.content) != "" && IsConfidence(op.conf)
    && (match DuplicateIndex(o, text, Clean(op.content))
        case Some(i) => Swells(SplitEntries(text), i)
        case None => false)
  }

  lemma AddSize(o: Oracles, limit: nat, text: string, es: seq<Entry>, content: string, conf: string, today: int)
    requires Lawful(o) && Holds(o, text, es) && AllSound(es)
    ensures var size := |StripMeta(AddText(o, limit, text, content, conf, today).0)|;
            if Overfills(o, text, AddOp(content, conf, today)) then size == |StripMeta(text)| + 1
            else size <= Max(limit, |StripMeta(text)|)
  {
    var cleaned := Clean(content);
    if cleaned != "" && IsConfidence(conf) {
      ChosenSize(o, limit, text, es, DuplicateIndex(o, text, cleaned), NewBlock(o, cleaned, conf, today), today);
    }
  }

  lemma ChosenSize(o: Oracles, limit: nat, text: string, es: seq<Entry>, dup: Option<nat>, block: string, today: int)
    requires Lawful(o) && Holds(o, text, es) && AllSound(es)
    ensures var size := |StripMeta(AddChosen(o, limit, text, dup, block, today).0)|;
            if dup.Some? && Swells(SplitEntries(text), dup.value) then size == |StripMeta(text)| + 1
            else size <= Max(limit, |StripMeta(text)|)
  {
    if dup.Some? {
      if dup.value < |es| {
        ReinforceSize(o, text, es, dup.value, today);
      } else if es == [] {
        assert SplitEntries("") == [""];
        if dup.value == 0 { ReinforceEmptySize(o, today); }
      }
    }
  }

  lemma ReinforceEmptySize(o: Oracles, today: int)
    requires Lawful(o)
    ensures ReinforceAt(o, "", 0, today).Some? && |StripMeta(ReinforceAt(o, "", 0, today).value)| == 0
  {
    var e := Entry("", Tagged(DEFAULT_CONFIDENCE, today, 1));
    var p := WholeText(o, e);
    ReinforceEmptyFile(o, today);
    EmptyBumps(o, today, p);
    CoreShows(o, p, e);
  }

  lemma EmptyBumps(o: Oracles, today: int, p: string)
    requires p == WholeText(o, Entry("", Tagged(DEFAULT_CONFIDENCE, today, 1)))
    ensures ReinforceAt(o, "", 0, today) == Some(p)
  {
    NewlineIsInert();
    ZeroParses();
    FirstBump(o, "", "", today);
    assert [""][0 := p] == [p] && Join([p]) == p;
  }

  lemma StepSize(o: Oracles, limit: nat, text: string, es: seq<Entry>, op: Op)
    requires Lawful(o) && Holds(o, text, es) && AllSound(es)
    ensures if Overfills(o, text, op) then |StripMeta(StepText(o, limit, text, op))| == |StripMeta(text)| + 1
            else |StripMeta(StepText(o, limit, text, op))| <= Max(limit, |StripMeta(text)|)
  {
    match op
    case AddOp(content, conf, today) => AddSize(o, limit, text, es, content, conf, today);
    case PruneOp(day, maxAge) => PruneSize(o, text, es, day, maxAge);
    case WriteOp(new_) =>
  }

  /** A step takes a file from within its cap to above it exactly when the file is full and the step overfills it. */
  lemma CapExceeded(o: Oracles, limit: nat, text: string, op: Op)
    requires Lawful(o) && WellFormed(o, text) && |StripMeta(text)| <= limit
    ensures |StripMeta(StepText(o, limit, text, op))| > limit <==> |StripMeta(text)| == limit && Overfills(o, text, op)
  {
    var es :| Holds(o, text, es) && AllSound(es);
    StepSize(o, limit, text, es, op);
  }

  // ---------- contents that never do that ----------

  /** Begins with a whole comment and shows closed text that can be compared. */
  predicate Springs(t: string) {
    MarkerLength(t) > 0 && Closed(Shown(t)) && EndsInText(Shown(t)) && !Blank(Shown(t))
  }

  /** At no stage of being written back does the text do that. */
  predicate Tame(t: string)
    decreases |t|
  {
    !Springs(t) && (ShownClosed(t); Closed(t) || Tame(Next(t)))
  }

  predicate TameTail(es: seq<Entry>) {
    forall i :: 1 <= i < |es| ==> Tame(es[i].text)
  }

  /** A file whose entries after the first are tame. */
  ghost predicate Calm(o: Oracles, text: string) {
    exists es :: Holds(o, text, es) && AllSound(es) && TameTail(es)
  }

  /** Added contents keep to one piece and are tame, and written texts are calm. */
  ghost predicate Gentle(o: Oracles, op: Op) {
    match op
    case AddOp(content, _, _) => Carried(o, Clean(content)) && Tame(Clean(content))
    case PruneOp(_, _) => true
    case WriteOp(new_) => Calm(o, new_)
  }

  lemma ClosedIsTame(t: string)
    requires Closed(t)
    ensures Tame(t)
  {
    if MarkerLength(t) > 0 { MatchExtends(t, "\n-->"); }
  }

  lemma NextIsTame(t: string)
    requires Tame(t) && Whole(t) && EndsInText(t)
    ensures Tame(Next(t))
  {
    NextIsWhole(t);
  }

  lemma BumpStaysTame(es: seq<Entry>, i: nat, today: int)
    requires AllSound(es) && TameTail(es) && i < |es|
    ensures TameTail(es[i := Bumped(es[i], today)])
  {
    if i > 0 { NextIsTame(es[i].text); }
  }

  lemma AddStaysTame(o: Oracles, es: seq<Entry>, cleaned: string, conf: string, today: int)
    requires AllSound(es) && TameTail(es) && Tame(cleaned)
    ensures TameTail(AddEntries(o, es, cleaned, conf, today))
  {
    var needle := Needle(o, cleaned);
    if needle.norm == "" {
      if es != [] { BumpStaysTame(es, 0, today); }
    } else {
      FoundStaysTame(es, FirstSimilar(needle, EntryProfiles(o, es)), cleaned, conf, today);
    }
  }

  lemma FoundStaysTame(es: seq<Entry>, dup: Option<nat>, cleaned: string, conf: string, today: int)
    requires AllSound(es) && TameTail(es) && Tame(cleaned)
    ensures TameTail(AddFound(es, dup, cleaned, conf, today))
  {
    if dup.Some? && dup.value < |es| { BumpStaysTame(es, dup.value, today); }
  }

  /** What a prune keeps behind its first entry was behind the first entry before. */
  lemma {:induction false} KeepStaysTame(es: seq<Entry>, today: int, maxAge: int)
    requires TameTail(es)
    ensures TameTail(KeepEntries(es, today, maxAge))
    ensures |KeepEntries(es, today, maxAge)| <= |es|
    decreases |es|
  {
    if es != [] {
      var n := |es| - 1;
      KeepStaysTame(es[..n], today, maxAge);
    }
  }

  lemma PruneStaysTame(es: seq<Entry>, today: int, maxAge: int)
    requires TameTail(es)
    ensures TameTail(PruneEntries(es, today, maxAge))
  {
    KeepStaysTame(es, today, maxAge);
  }

  /** An entry that a deduplication finds and that grows by its reinforcement is not tame. */
  lemma TameNeverSwells(o: Oracles, text: string, es: seq<Entry>, cleaned: string)
    requires Lawful(o) && Holds(o, text, es) && AllSound(es) && TameTail(es)
    ensures var dup := DuplicateIndex(o, text, cleaned);
            dup.Some? ==> !Swells(SplitEntries(text), dup.value)
  {
    if Needle(o, cleaned).norm != "" && es != [] {
      DuplicateFound(o, text, es, cleaned);
      FirstSimilarIsSimilar(Needle(o, cleaned), EntryProfiles(o, es));
      var dup := FirstSimilar(Needle(o, cleaned), EntryProfiles(o, es));
      if dup.Some? && dup.value > 0 {
        SimilarSwells(o, SplitEntries(text), es, dup.value);
      }
    }
  }

  lemma {:induction false} FirstSimilarIsSimilar(needle: Profile, ps: seq<Profile>)
    ensures var r := FirstSimilar(needle, ps);
            r.Some? ==> r.value < |ps| && ps[r.value].norm != ""
    decreases |ps|
  {
    if ps != [] { FirstSimilarIsSimilar(needle, ps[1..]); }
  }

  lemma SimilarSwells(o: Oracles, ps: seq<string>, es: seq<Entry>, i: nat)
    requires Lawful(o) && ShapesAll(o, ps, es) && AllSound(es) && TameTail(es) && 1 <= i < |es|
    requires EntryProfiles(o, es)[i].norm != ""
    ensures !Swells(ps, i)
  {
    var t := es[i].text;
    assert !Blank(Shown(t));
    ShapeReads(o, ps[i], es[i]);
    if MarkerLength(ps[i]) > 0 { HeadOfText(o, ps[i], es[i]); }
  }

  /** An entry that shows something and begins with a whole comment has that comment in its text. */
  lemma HeadOfText(o: Oracles, p: string, e: Entry)
    requires Lawful(o) && Sound(e) && Shape(o, p, e) && MarkerLength(p) > 0 && !Blank(Shown(e.text))
    ensures MarkerLength(e.text) > 0
  {
    var q, rest := SplitLine(p, e.text, CommentText(o, e.tag));
    HeadThen(o, q, e, rest);
    if e.tag.Bare? {
      assert e.text + "" == e.text;
    } else {
      EmptyShowsNothing();
      assert DateSurvives(o, e.tag.captured);
      KvShape(o, e.tag);
      WholeHead(e.text, KvOf(o, e.tag));
    }
  }

  lemma WholeHead(b: string, kv: string)
    requires NoGt(kv) && b != "" && MarkerLength(b + Comment(kv)) > 0 && Shown(b) != ""
    ensures MarkerLength(b) > 0
  {
    var c := Comment(kv);
    CommentMatches(kv, "");
    assert c + "" == c;
    ClosingDash();
    MarkerIndependent(b, c, "\n-->");
    var m := MarkerLength(b + "\n-->");
    assert m > 0 && b[0] == '<';
    assert (b + "\n-->")[0] == b[0];
    assert MatchLength(b + "\n-->") == m;
    assert m <= |b|;
    MarkerInside(b, "\n-->", m);
  }

  lemma MarkerInside(b: string, x: string, m: nat)
    requires 0 < m == MarkerLength(b + x) <= |b|
    ensures MarkerLength(b) == m
  {
    OpeningShrinks(b, x);
    GtShrinks(b, x, Opening(b + x));
    assert forall j :: 0 <= j < |b| ==> (b + x)[j] == b[j];
  }

  /**
   * Over any run of adds of tame contents, prunes, and writes of calm files the visible size never
   * goes from within the limit to above it; from above, it never grows.
   */
  lemma {:induction false} NeverGrowsPastLimit(o: Oracles, limit: nat, text: string, es: seq<Entry>, ops: seq<Op>)
    returns (es': seq<Entry>)
    requires Lawful(o) && Holds(o, text, es) && AllSound(es) && TameTail(es)
    requires forall i :: 0 <= i < |ops| ==> Gentle(o, ops[i])
    ensures Holds(o, RunText(o, limit, text, ops), es') && AllSound(es') && TameTail(es')
    ensures |StripMeta(RunText(o, limit, text, ops))| <= Max(limit, |StripMeta(text)|)
    decreases |ops|
  {
    if ops == [] {
      es' := es;
    } else {
      var n := |ops| - 1;
      var before := NeverGrowsPastLimit(o, limit, text, es, ops[..n]);
      es' := GentleStep(o, limit, RunText(o, limit, text, ops[..n]), before, ops[n]);
    }
  }

  lemma GentleStep(o: Oracles, limit: nat, text: string, es: seq<Entry>, op: Op) returns (es': seq<Entry>)
    requires Lawful(o) && Holds(o, text, es) && AllSound(es) && TameTail(es) && Gentle(o, op)
    ensures Holds(o, StepText(o, limit, text, op), es') && AllSound(es') && TameTail(es')
    ensures |StripMeta(StepText(o, limit, text, op))| <= Max(limit, |StripMeta(text)|)
  {
    StepSize(o, limit, text, es, op);
    match op
    case AddOp(content, conf, today) =>
      es' := StepHolds(o, limit, text, es, op);
      AddStaysTame(o, es, Clean(content), conf, today);
      TameNeverSwells(o, text, es, Clean(content));
    case PruneOp(day, maxAge) =>
      es' := StepHolds(o, limit, text, es, op);
      PruneStaysTame(es, day, maxAge);
    case WriteOp(new_) =>
      if |StripMeta(new_)| <= limit {
        es' :| Holds(o, new_, es') && AllSound(es') && TameTail(es');
      } else {
        es' := es;
      }
  }

  // ---------- revision-checked replacement ----------

  ghost predicate CollisionFree(rev: string -> string) {
    forall s, t :: rev(s) == rev(t) ==> s == t
  }

  /**
   * A replacement with the revision of what was read is written exactly when it fits and the file
   * is, after whatever ran in between, still what was read; otherwise the file stays as it is.
   */
  lemma ReplaceOnlyWhatWasRead(o: Oracles, limit: nat, rev: string -> string, read: string, ops: seq<Op>, new_: string)
    requires CollisionFree(rev)
    ensures var now := RunText(o, limit, read, ops);
            var r := ReplaceText(limit, rev, now, new_, Some(rev(read)));
            && (r.1 <==> |StripMeta(new_)| <= limit && now == read)
            && (!r.1 ==> r.0 == now)
  {
    var now := RunText(o, limit, read, ops);
    if rev(now) == rev(read) { assert now == read; }
  }

  /**
   * Of two editors who read the same file, the second to save is turned away once the first has
   * changed it, and the first one's text survives.
   */
  lemma FirstEditorWins(limit: nat, rev: string -> string, read: string, a: string, b: string)
    requires CollisionFree(rev) && a != read
    requires ReplaceText(limit, rev, read, a, Some(rev(read))).1
    ensures var first := ReplaceText(limit, rev, read, a, Some(rev(read)));
            ReplaceText(limit, rev, first.0, b, Some(rev(read))) == (a, false)
  {
    assert rev(a) == rev(read) ==> a == read;
  }
}
