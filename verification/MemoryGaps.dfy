/** Contents and files for which the store does not keep its rules, with concrete instances. */
module MemoryGaps {
  import opened Common
  import opened Text
  import opened EntryFormat
  import opened Similarity
  import opened MemoryStore
  import opened MemoryEntries
  import opened MemoryRuns
  import opened MemoryCounters
  import opened MemorySize
  import MemoryAudit

  // ---------- a content that opens a comment ----------

  /** A line that opens a metadata comment and does not close it. */
  const OPENER := "\n<!-- alpi-meta x"

  predicate NoLt(s: string) { forall i :: 0 <= i < |s| ==> s[i] != '<' }

  lemma {:induction false} NoLtNoMarker(s: string)
    requires NoLt(s)
    ensures StripMeta(s) == s
    decreases |s|
  {
    if s != "" {
      NoLtNoMarker(s[1..]);
      assert MatchLength(s) == 0;
      assert [s[0]] + s[1..] == s;
    }
  }

  lemma {:induction false} NoLtClosed(b: string)
    requires NoLt(b)
    ensures Closed(b)
    decreases |b|
  {
    if b != "" {
      NoLtClosed(b[1..]);
      var s := b + "\n-->";
      assert NoLt(s);
      assert MatchLength(s) == 0;
    }
  }

  /** The comment written after an open one closes it, and its line is no longer visible. */
  lemma OpenerHidesItself(b: string, kv: string, rest: string)
    requires Closed(b) && NoGt(kv)
    ensures StripMeta((b + OPENER) + (Comment(kv) + rest)) == b + StripMeta(rest)
  {
    var kv' := "x" + (COMMENT_HEAD + kv);
    assert NoGt(COMMENT_HEAD);
    assert NoGt(kv');
    StripBuilt(b, kv', rest);
    ShownClosed(b);
    OpenerAndComment(b, kv, rest);
  }

  lemma OpenerAndComment(b: string, kv: string, rest: string)
    ensures (b + OPENER) + (Comment(kv) + rest) == b + (Comment("x" + (COMMENT_HEAD + kv)) + rest)
  {
    assert OPENER == COMMENT_HEAD + "x";
  }

  /**
   * Adding a body that ends in an open comment: deduplication compares the whole of it, but what
   * the stored entry shows, to the audit and to later adds, is the part before the opening.
   */
  lemma ComparedIsNotStored(o: Oracles, b: string, conf: string, today: int)
    requires Lawful(o) && Closed(b) && IsConfidence(conf)
    ensures StripMeta(b + OPENER) == b + OPENER
    ensures StripMeta(NewBlock(o, b + OPENER, conf, today)) == b + "\n"
    ensures ProfileOf(o, StripMeta(NewBlock(o, b + OPENER, conf, today))) == ProfileOf(o, b)
  {
    OpenerIsCompared(b);
    OpenerIsNotStored(o, b, conf, today);
    StripFinalSpace(b, '\n');
    ProfileIgnoresEnds(o, b + "\n", b);
  }

  lemma OpenerIsCompared(b: string)
    requires Closed(b)
    ensures StripMeta(b + OPENER) == b + OPENER
  {
    var x := OPENER;
    OpenerBreaks();
    ClosedThen(b, x);
    NoGtStays(x);
  }

  lemma OpenerBreaks()
    ensures Breaks(OPENER) && NoGt(OPENER)
  {
    assert OPENER[0] == '\n' && OPENER[1] == '<';
  }

  lemma OpenerIsNotStored(o: Oracles, b: string, conf: string, today: int)
    requires Lawful(o) && Closed(b) && IsConfidence(conf)
    ensures StripMeta(NewBlock(o, b + OPENER, conf, today)) == b + "\n"
  {
    var t := Tagged(conf, today, 0);
    NormalIsValue();
    assert DateSurvives(o, today);
    KvShape(o, t);
    OpenerHidesItself(b, KvOf(o, t), "\n");
    NewlineIsInert();
    BlockIs(o, b + OPENER, t);
  }

  lemma BlockIs(o: Oracles, cleaned: string, t: Tag)
    requires t.Tagged? && t.reinforced == 0
    ensures NewBlock(o, cleaned, t.conf, t.captured) == cleaned + (Comment(KvOf(o, t)) + "\n")
  {
    Associates(cleaned, Comment(KvOf(o, t)), "\n");
  }

  /** A new entry shows the content it was added with exactly when the content is closed. */
  lemma ShownAsAdded(o: Oracles, cleaned: string, conf: string, today: int)
    requires Lawful(o) && IsConfidence(conf)
    ensures StripMeta(NewBlock(o, cleaned, conf, today)) == cleaned + "\n" <==> Closed(cleaned)
  {
    var t := Tagged(conf, today, 0);
    NormalIsValue();
    assert DateSurvives(o, today);
    KvShape(o, t);
    BlockIs(o, cleaned, t);
    NewlineIsInert();
    StripBuilt(cleaned, KvOf(o, t), "\n");
    SameFront(Shown(cleaned), cleaned, "\n");
  }

  lemma SameFront(a: string, b: string, c: string)
    ensures a + c == b + c <==> a == b
  {
    if a + c == b + c {
      assert (a + c)[..|a|] == a && (b + c)[..|a|] == b;
    }
  }

  // ---------- a concrete run ----------

  /** Oracles that look at nothing but the characters. */
  function PlainOracles(): Oracles {
    Oracles(s => s, s => {}, s => ParseInt(s), d => IntText(d))
  }

  lemma PlainOraclesLawful()
    ensures Lawful(PlainOracles())
  {
    var o := PlainOracles();
    forall d ensures DateSurvives(o, d) {
      IntTextIsValue(d);
      ParseIntRoundTrip(d);
    }
  }

  /** One line of text without markup, ending in neither space nor punctuation. */
  predicate IsNote(s: string) {
    && CleanLine(s) && NoLt(s) && !IsPunctuation(s[|s| - 1])
  }

  lemma NoteReads(s: string)
    requires IsNote(s)
    ensures Clean(s) == s && Closed(s) && ProfileOf(PlainOracles(), s) == Profile(s, {})
  {
    NoLtClosed(s);
    CleanKeeps([s]);
  }

  lemma OpenerLine()
    ensures OPENER == "\n" + OPENER[1..] && CleanLine(OPENER[1..]) && OPENER[|OPENER| - 1] == 'x'
  {
    var l := OPENER[1..];
    assert l[0] == '<' && l[|l| - 1] == 'x';
    assert "(alpi will"[0] == '(';
    assert forall i :: 0 <= i < |l| ==> !IsLineBreak(l[i]);
  }

  lemma CleanTwo(s: string, t: string)
    requires CleanLine(s) && CleanLine(t)
    ensures Clean(s + ("\n" + t)) == s + ("\n" + t)
  {
    var ls := [s, t];
    assert ls[1..] == [t];
    CleanKeeps(ls);
  }

  lemma NoteWithOpener(b: string)
    requires IsNote(b)
    ensures Clean(b + OPENER) == b + OPENER && ProfileOf(PlainOracles(), b + OPENER) == Profile(b + OPENER, {})
  {
    OpenerLine();
    CleanTwo(b, OPENER[1..]);
    CleanedIsSolid(b + OPENER);
  }

  /** An add that finds no duplicate and fits stores its block. */
  lemma AddIsAppend(o: Oracles, limit: nat, text: string, content: string, conf: string, today: int)
    requires Clean(content) == content != "" && IsConfidence(conf) && DuplicateIndex(o, text, content) == None
    requires |Appended(text, NewBlock(o, content, conf, today))| <= limit
    ensures AddText(o, limit, text, content, conf, today).0 == Appended(text, NewBlock(o, content, conf, today))
  {
    var c := Clean(content);
    assert AddCleaned(o, limit, text, c, conf, today)
        == AddChosen(o, limit, text, None, NewBlock(o, content, conf, today), today);
  }

  /** A first content that deduplication can read, and a second one that opens a comment. */
  ghost predicate Escapes(o: Oracles, a: string, b: string) {
    && Clean(a) == a != "" && Closed(a) && ProfileOf(o, a).norm != ""
    && Clean(b + OPENER) == b + OPENER && Closed(b) && ProfileOf(o, b + OPENER).norm != ""
    && Strip(b) != ""
    && Similar(ProfileOf(o, a), ProfileOf(o, b), DEDUP_THRESHOLD)
    && !Similar(ProfileOf(o, b + OPENER), ProfileOf(o, a), DEDUP_THRESHOLD)
  }

  function Block(o: Oracles, content: string): string {
    NewBlock(o, content, "normal", 0)
  }

  function NoteEntry(a: string): Entry {
    Entry(a, Tagged("normal", 0, 0))
  }

  lemma FirstAdd(o: Oracles, limit: nat, a: string) returns (es: seq<Entry>)
    requires Lawful(o) && Clean(a) == a != "" && Closed(a) && ProfileOf(o, a).norm != "" && |Block(o, a)| <= limit
    ensures AddText(o, limit, "", a, "normal", 0).0 == Block(o, a)
    ensures |es| == 1 && es[0] == NoteEntry(a) && Holds(o, Block(o, a), es) && AllSound(es)
  {
    CleanedIsSolid(a);
    NormalIsValue();
    ClosedStrips(a);
    DuplicateFound(o, "", [], a);
    AppendHolds(o, "", [], Block(o, a), NoteEntry(a));
    es := [] + [NoteEntry(a)];
    AddIsAppend(o, limit, "", a, "normal", 0);
  }

  /** Deduplication takes the second content for new. */
  lemma OpenerLooksNew(o: Oracles, text: string, es: seq<Entry>, b: string)
    requires Lawful(o) && |es| == 1 && Holds(o, text, es) && AllSound(es) && Closed(b) && ProfileOf(o, b + OPENER).norm != ""
    requires !Similar(ProfileOf(o, b + OPENER), ProfileOf(o, Shown(es[0].text)), DEDUP_THRESHOLD)
    ensures DuplicateIndex(o, text, b + OPENER) == None
  {
    OpenerIsCompared(b);
    HeldProfiles(o, text, es);
    LooksNew(o, text, b + OPENER, EntryProfiles(o, es));
  }

  lemma LooksNew(o: Oracles, text: string, c: string, ps: seq<Profile>)
    requires StripMeta(c) == c && ProfileOf(o, c).norm != "" && Profiles(o, SplitEntries(text)) == ps && |ps| == 1
    requires !Similar(ProfileOf(o, c), ps[0], DEDUP_THRESHOLD)
    ensures DuplicateIndex(o, text, c) == None
  {
    NoneSimilar(ProfileOf(o, c), ps);
  }

  lemma NoneSimilar(needle: Profile, ps: seq<Profile>)
    requires |ps| == 1 && !Similar(needle, ps[0], DEDUP_THRESHOLD)
    ensures FirstSimilar(needle, ps) == None
  {
    assert ps[1..] == [];
  }

  /** What the file then shows: the first entry and the part of the second before the opening. */
  lemma OpenerShows(o: Oracles, text: string, es: seq<Entry>, b: string)
    requires Lawful(o) && |es| == 1 && Holds(o, text, es) && AllSound(es) && Closed(b) && Solid(b + OPENER)
    ensures var ps := SplitEntries(Appended(text, Block(o, b + OPENER)));
            |ps| == 2 && StripMeta(ps[0]) == Shown(es[0].text) && StripMeta(ps[1]) == b + "\n"
  {
    BlockSolid(o, b);
    TwoParts(o, text, es, Block(o, b + OPENER));
    CoreShows(o, SplitEntries(Appended(text, Block(o, b + OPENER)))[0], es[0]);
    NormalIsValue();
    OpenerIsNotStored(o, b, "normal", 0);
  }

  lemma TwoParts(o: Oracles, text: string, es: seq<Entry>, block: string)
    requires Lawful(o) && |es| == 1 && Holds(o, text, es) && AllSound(es) && Solid(block)
    ensures var ps := SplitEntries(Appended(text, block));
            |ps| == 2 && Core(o, ps[0], es[0]) && ps[1] == block
  {
    JoinSplit(text);
    var qs := FileTrims(o, SplitEntries(text), es);
    JoinLast(qs, block);
    ShapeSolid(o, qs[0], es[0]);
    TwoSplit(qs, block);
  }

  lemma TwoSplit(qs: seq<string>, block: string)
    requires |qs| == 1 && Solid(qs[0]) && Solid(block)
    ensures SplitEntries(Join(qs + [block])) == qs + [block]
  {
    SplitJoin(qs + [block]);
  }

  lemma BlockSolid(o: Oracles, b: string)
    requires Lawful(o) && Solid(b + OPENER)
    ensures Solid(Block(o, b + OPENER))
  {
    var t := Tagged("normal", 0, 0);
    assert DateSurvives(o, 0);
    NormalIsValue();
    KvShape(o, t);
    CommentSolid(b + OPENER, KvOf(o, t), "\n");
    BlockIs(o, b + OPENER, t);
  }

  /** The file after the two adds. */
  function BothStored(o: Oracles, a: string, b: string): string {
    Appended(Block(o, a), Block(o, b + OPENER))
  }

  lemma BothAdded(o: Oracles, limit: nat, a: string, b: string)
    requires Lawful(o) && Escapes(o, a, b) && limit >= |Block(o, a)| && limit >= |BothStored(o, a, b)|
    ensures RunText(o, limit, "", [AddOp(a, "normal", 0), AddOp(b + OPENER, "normal", 0)]) == BothStored(o, a, b)
  {
    var es := FirstAdd(o, limit, a);
    ShownClosed(a);
    OpenerLooksNew(o, Block(o, a), es, b);
    AddIsAppend(o, limit, Block(o, a), b + OPENER, "normal", 0);
    TwoSteps(o, limit, AddOp(a, "normal", 0), AddOp(b + OPENER, "normal", 0), Block(o, a), BothStored(o, a, b));
  }

  lemma TwoSteps(o: Oracles, limit: nat, p: Op, q: Op, t1: string, t2: string)
    requires StepText(o, limit, "", p) == t1 && StepText(o, limit, t1, q) == t2
    ensures RunText(o, limit, "", [p, q]) == t2
  {
    assert [p, q][..1] == [p] && [p][..0] == [];
    assert RunText(o, limit, "", [p]) == t1;
  }

  lemma AuditsBoth(ps: seq<string>)
    requires |ps| == 2 && Strip(StripMeta(ps[0])) != "" && Strip(StripMeta(ps[1])) != ""
    ensures AuditParts(ps) == ps
  {
    var rest := ps[1..];
    assert rest[1..] == [] && rest == [ps[1]] + [];
    assert AuditParts(rest) == rest;
    assert ps == [ps[0]] + rest;
  }

  /**
   * Two adds on an empty file after which the audit does find a cluster: the second content ends
   * in an open comment, and without it would have been taken for a duplicate of the first.
   */
  lemma OpenerEscapesDedup(o: Oracles, limit: nat, a: string, b: string, cs: seq<seq<nat>>)
    requires Lawful(o) && Escapes(o, a, b) && limit >= |Block(o, a)| && limit >= |BothStored(o, a, b)|
    requires var text := RunText(o, limit, "", [AddOp(a, "normal", 0), AddOp(b + OPENER, "normal", 0)]);
             MemoryAudit.AreClusters(Profiles(o, AuditParts(SplitEntries(text))), DEDUP_THRESHOLD, cs)
    ensures cs != []
  {
    BothAdded(o, limit, a, b);
    var es := FirstAdd(o, limit, a);
    ShownClosed(a);
    CleanedIsSolid(a);
    StripTrims(a);
    CleanedIsSolid(b + OPENER);
    OpenerShows(o, Block(o, a), es, b);
    var ps := SplitEntries(BothStored(o, a, b));
    BothShown(o, a, b, ps);
    PairClusters(Profiles(o, ps), cs);
  }

  lemma BothShown(o: Oracles, a: string, b: string, ps: seq<string>)
    requires Lawful(o) && |ps| == 2 && StripMeta(ps[0]) == a && StripMeta(ps[1]) == b + "\n"
    requires Strip(a) != "" && Strip(b) != ""
    ensures AuditParts(ps) == ps
    ensures Profiles(o, ps)[0] == ProfileOf(o, a) && Profiles(o, ps)[1] == ProfileOf(o, b)
  {
    StripFinalSpace(b, '\n');
    AuditsBoth(ps);
    StripFinalSpace(b, '\n');
    ProfileIgnoresEnds(o, b + "\n", b);
  }

  lemma PairClusters(ps: seq<Profile>, cs: seq<seq<nat>>)
    requires |ps| == 2 && Similar(ps[0], ps[1], DEDUP_THRESHOLD) && MemoryAudit.AreClusters(ps, DEDUP_THRESHOLD, cs)
    ensures cs != []
  {
    assert MemoryAudit.Edge(ps, DEDUP_THRESHOLD, 0, 1);
    MemoryAudit.NoClusterIffNoEdge(ps, DEDUP_THRESHOLD, cs);
  }

  /** One line of letters and an initial part of it are such contents. */
  lemma NotesEscape(a: string, b: string)
    requires IsNote(a) && IsNote(b) && b <= a && 'y' in a && 'y' !in b
    ensures Lawful(PlainOracles()) && Escapes(PlainOracles(), a, b)
    ensures |a| <= 1000 ==> |Block(PlainOracles(), a)| <= 5000 && |BothStored(PlainOracles(), a, b)| <= 5000
  {
    PlainOraclesLawful();
    NotesAreApart(a, b);
    if |a| <= 1000 { NotesAreShort(a, b); }
  }

  lemma NotesAreApart(a: string, b: string)
    requires IsNote(a) && IsNote(b) && b <= a && 'y' in a && 'y' !in b
    ensures Escapes(PlainOracles(), a, b)
  {
    NoteReads(a);
    NoteReads(b);
    NoteWithOpener(b);
    StripTrims(b);
    PartIsSimilar(a, b);
  }

  lemma NotesAreShort(a: string, b: string)
    requires b <= a && |a| <= 1000
    ensures |Block(PlainOracles(), a)| <= 5000 && |BothStored(PlainOracles(), a, b)| <= 5000
  {
    assert |OPENER| == 17;
  }

  lemma PartIsSimilar(a: string, b: string)
    requires b != "" && b <= a && NoLt(a) && 'y' in a && 'y' !in b
    ensures Similar(Profile(a, {}), Profile(b, {}), DEDUP_THRESHOLD)
    ensures !Similar(Profile(b + OPENER, {}), Profile(a, {}), DEDUP_THRESHOLD)
  {
    assert OccursAt(a, b, 0);
    LetterMissing(b + OPENER, a, 'y');
    assert '<' !in a;
    LetterMissing(a, b + OPENER, '<');
  }

  /** A text with a letter that another lacks does not occur in it. */
  lemma LetterMissing(hay: string, needle: string, c: char)
    requires c in needle && c !in hay
    ensures !Contains(hay, needle) && hay != needle
  {
    var k :| 0 <= k < |needle| && needle[k] == c;
    forall i | 0 <= i <= |hay| - |needle| ensures !OccursAt(hay, needle, i) {
      assert hay[i..i + |needle|][k] == hay[i + k] && hay[i + k] in hay;
    }
  }

  // ---------- a comment that spans entries ----------

  /** A file written by hand in which one comment swallows a delimiter. */
  function SpanningFile(pad: string): string {
    "<!-- alpi-meta a" + (DELIMITER + ("b -->" + pad))
  }

  /**
   * On such a file a reinforcement grows the visible size: it closes the comment early, and what
   * the comment hid comes to light.
   */
  lemma SpanningCommentGrows(o: Oracles, pad: string, today: int)
    requires Lawful(o) && NoLt(pad)
    requires DelimFree("b -->" + pad)
    ensures |StripMeta(SpanningFile(pad))| == |pad|
    ensures ReinforceAt(o, SpanningFile(pad), 0, today).Some?
    ensures |StripMeta(ReinforceAt(o, SpanningFile(pad), 0, today).value)| == |pad| + 8
  {
    SpanningBefore(pad);
    SpanningAfter(o, pad, today);
  }

  /**
   * On such a file, full to its limit, any add whose content normalises to nothing reinforces the first
   * entry and leaves the file eight characters over.
   */
  lemma SpanningAddGrows(o: Oracles, pad: string, content: string, conf: string, today: int)
    requires Lawful(o) && NoLt(pad) && DelimFree("b -->" + pad)
    requires Clean(content) != "" && IsConfidence(conf) && Needle(o, Clean(content)).norm == ""
    ensures var text, limit := SpanningFile(pad), |pad|;
            var r := AddText(o, limit, text, content, conf, today);
            |StripMeta(text)| == limit && r.1 == Reinforced && |StripMeta(r.0)| == limit + 8
  {
    SpanningCommentGrows(o, pad, today);
    var text := SpanningFile(pad);
    assert AddCleaned(o, |pad|, text, Clean(content), conf, today) == ReinforceText(o, text, 0, today);
  }

  /** A full stop added to such a file of 5000 visible characters. */
  lemma SpanningAddGrowsHere(pad: string, today: int)
    requires |pad| == 5000 && forall i :: 0 <= i < |pad| ==> pad[i] == 'x'
    ensures var text := SpanningFile(pad);
            var r := AddText(PlainOracles(), 5000, text, ".", "normal", today);
            |StripMeta(text)| == 5000 && r.1 == Reinforced && |StripMeta(r.0)| == 5008
  {
    PlainOraclesLawful();
    FullStop();
    var line := "b -->" + pad;
    LineThen(line, "");
    assert line + "" == line;
    SpanningAddGrows(PlainOracles(), pad, ".", "normal", today);
  }

  lemma FullStop()
    ensures Clean(".") == "." && Needle(PlainOracles(), ".").norm == "" && IsConfidence("normal")
  {
    CleanKeeps(["."]);
    NoLtNoMarker(".");
    assert Strip(".") == "." && "."[..0] == "";
    assert RstripPunctuation(".") == "";
  }

  lemma SpanningBefore(pad: string)
    requires NoLt(pad)
    ensures StripMeta(SpanningFile(pad)) == pad
  {
    var kv := "a" + (DELIMITER + "b");
    assert NoGt(kv) && Trimmed(kv);
    DroppedComment(kv, pad);
    NoLtNoMarker(pad);
    SpanningIs(pad);
  }

  lemma SpanningIs(pad: string)
    ensures SpanningFile(pad) == Comment("a" + (DELIMITER + "b"))[1..] + pad
  {
  }

  const SPAN_HEAD := "<!-- alpi-meta a"

  lemma SpanHead()
    ensures NoGt(SPAN_HEAD) && Solid(SPAN_HEAD) && SPAN_HEAD != "" && SPAN_HEAD[|SPAN_HEAD| - 1] == 'a'
  {
    assert forall i :: 0 <= i < |SPAN_HEAD| ==> SPAN_HEAD[i] != '\n';
    MarkFree("");
    assert "" + "\n\U{00A7}" == "\n\U{00A7}";
    LineThen(SPAN_HEAD, "\n\U{00A7}");
  }

  lemma SpanHeadBumps(o: Oracles, h: string, today: int)
    requires NoGt(h) && h != "" && h[|h| - 1] == 'a'
    ensures BumpEntry(o, h, today) == Some(h + Comment(KvOf(o, Tagged("normal", today, 1))))
  {
    NoGtStays(h);
    NothingCloses(h);
    assert RstripNewlines(h) == h;
    ZeroParses();
    FirstBump(o, h, h, today);
  }

  lemma SpanningAfter(o: Oracles, pad: string, today: int)
    requires Lawful(o) && NoLt(pad) && DelimFree("b -->" + pad)
    ensures ReinforceAt(o, SpanningFile(pad), 0, today).Some?
    ensures |StripMeta(ReinforceAt(o, SpanningFile(pad), 0, today).value)| == |pad| + 8
  {
    SpanHead();
    SpanningGives(o, SpanningFile(pad), SPAN_HEAD, "b -->" + pad, today);
    SpanningShows(o, "b -->" + pad, today);
  }

  lemma SpanningGives(o: Oracles, text: string, h: string, t: string, today: int)
    requires NoGt(h) && h != "" && h[|h| - 1] == 'a' && Solid(h) && DelimFree(t) && text == h + (DELIMITER + t)
    ensures ReinforceAt(o, text, 0, today) == Some((h + Comment(KvOf(o, Tagged("normal", today, 1)))) + (DELIMITER + t))
  {
    SpanningSplits(text, h, t);
    SpanHeadBumps(o, h, today);
    SpanningReinforced(o, h, t, text, Comment(KvOf(o, Tagged("normal", today, 1))), today);
  }

  lemma SpanningSplits(text: string, h: string, t: string)
    requires Solid(h) && DelimFree(t) && text == h + (DELIMITER + t)
    ensures SplitEntries(text) == [h] + [t]
  {
    SplitFirst(h, t);
    SplitSingle(t);
  }

  lemma SpanningReinforced(o: Oracles, h: string, t: string, text: string, c: string, today: int)
    requires SplitEntries(text) == [h] + [t] && BumpEntry(o, h, today) == Some(h + c)
    ensures ReinforceAt(o, text, 0, today) == Some((h + c) + (DELIMITER + t))
  {
    assert ([h] + [t])[0 := h + c] == [h + c] + [t];
    assert Join([t]) == t;
  }

  lemma SpanningShows(o: Oracles, t: string, today: int)
    requires Lawful(o) && NoLt(t)
    ensures |StripMeta((SPAN_HEAD + Comment(KvOf(o, Tagged("normal", today, 1)))) + (DELIMITER + t))| == |t| + 3
  {
    var g := Tagged("normal", today, 1);
    var kv := KvOf(o, g);
    assert DateSurvives(o, today);
    NormalIsValue();
    KvShape(o, g);
    SpanCloses(kv, DELIMITER + t);
  }

  /** The comment written behind the open head closes it; what follows stays visible. */
  lemma SpanCloses(kv: string, x: string)
    requires NoGt(kv) && Trimmed(kv) && kv != "" && NoLt(x)
    ensures StripMeta((SPAN_HEAD + Comment(kv)) + x) == x
  {
    SpanKv(kv);
    SpanComment(kv, x);
    CommentHides("a" + (COMMENT_HEAD + kv), x);
  }

  lemma CommentHides(kv: string, x: string)
    requires NoGt(kv) && Trimmed(kv) && NoLt(x)
    ensures StripMeta(Comment(kv)[1..] + x) == x
  {
    DroppedComment(kv, x);
    NoLtNoMarker(x);
  }

  lemma SpanKv(kv: string)
    requires NoGt(kv) && Trimmed(kv) && kv != ""
    ensures NoGt("a" + (COMMENT_HEAD + kv)) && Trimmed("a" + (COMMENT_HEAD + kv))
  {
    assert NoGt(COMMENT_HEAD);
    var s := "a" + (COMMENT_HEAD + kv);
    assert s[|s| - 1] == kv[|kv| - 1];
  }

  lemma SpanComment(kv: string, x: string)
    ensures (SPAN_HEAD + Comment(kv)) + x == Comment("a" + (COMMENT_HEAD + kv))[1..] + x
  {
    assert SPAN_HEAD == COMMENT_HEAD[1..] + "a";
  }
}
