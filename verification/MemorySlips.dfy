/**
 * What a prune can undo: a content that comes apart into entries which show nothing to compare agrees
 * over runs of adds, but a prune that trims the front of the file can join what was split.
 */
module MemorySlips {
  import opened Common
  import opened Text
  import opened EntryFormat
  import opened Similarity
  import opened MemoryStore
  import opened MemoryEntries
  import opened MemoryRuns
  import opened MemoryCounters
  import opened MemorySize
  import opened MemoryGaps
  import opened MemoryEscapes
  import MemoryAudit
  import opened MemoryAgreement

  /** A content that shows a delimiter with nothing before it and nothing to compare behind it. */
  predicate Slips(c: string, t: string) {
    && Clean(c) == c != "" && Shown(c) == StripMeta(c) == DELIMITER + t
    && Blank(t) && t != "" && t[|t| - 1] != '\n'
  }

  lemma SlipsIsAgreeing(c: string, t: string)
    requires Slips(c, t)
    ensures Agreeing(c) && !Stable(c)
  {
    NextOfSlips(c, t);
    SlippedMarks(t);
    SlippedNotSolid(t);
    SlipsIsMute(c, t);
  }

  lemma SlipsIsMute(c: string, t: string)
    requires Next(c) == DELIMITER + t && Blank(t)
    ensures Mute(c)
  {
    var d := BuildMeta("normal", IntText(DAY), 1);
    NormalIsValue();
    IntTextIsValue(DAY);
    assert Written(d, 1);
    SlippedPieces(t, d, 1);
  }

  lemma NextOfSlips(c: string, t: string)
    requires Slips(c, t)
    ensures Next(c) == DELIMITER + t
  {
    EndsInTextStays(DELIMITER + t);
  }

  lemma EndsInTextStays(s: string)
    requires EndsInText(s)
    ensures RstripNewlines(s) == s
  {
  }

  lemma SecondIsSection(t: string)
    ensures |DELIMITER + t| > 1 && (DELIMITER + t)[1] == '\U{00A7}'
  {
  }

  lemma SlippedMarks(t: string)
    ensures !Blank(DELIMITER + t) && !Blank("\U{00A7}\n" + t)
  {
    assert (DELIMITER + t)[1] == '\U{00A7}';
    if Blank(DELIMITER + t) { BlankHasNoMark(DELIMITER + t); }
    if Blank("\U{00A7}\n" + t) { BlankHasNoMark("\U{00A7}\n" + t); }
  }

  lemma SlippedNotSolid(t: string)
    ensures !Solid(DELIMITER + t)
  {
    assert DELIMITER <= (DELIMITER + t) + "\n\U{00A7}";
  }

  /** Rewritten, it comes apart into an entry without text and one that shows nothing to compare. */
  lemma SlippedPieces(t: string, d: string, k: int)
    requires Blank(t) && Written(d, k)
    ensures SplitEntries((DELIMITER + t) + d) == [""] + [t + d]
    ensures StripMeta("") == "" && StripMeta(t + d) == t && Blank("")
  {
    EmptyShowsNothing();
    NewlineIsInert();
    BlankWritten(t, d, k);
    BehindDelimiterOnly((DELIMITER + t) + d, t + d);
  }

  lemma BlankWritten(t: string, d: string, k: int)
    requires Blank(t) && Written(d, k)
    ensures SplitEntries(t + d) == [t + d] && StripMeta(t + d) == t
  {
    BlankIsPlain(t);
    WrittenEndsSolid(t, d, k);
    ClosedAgain(t, d, k);
  }

  lemma BehindDelimiterOnly(s: string, x: string)
    requires s == DELIMITER + x && SplitEntries(x) == [x]
    ensures SplitEntries(s) == [""] + [x]
  {
    assert s[3..] == x && DELIMITER <= s;
  }

  /** Without the line break before its section sign it shows as much as the content does. */
  lemma SlippedShows(o: Oracles, t: string, d: string, k: int)
    requires Lawful(o) && Blank(t) && Written(d, k)
    ensures var w := "\U{00A7}\n" + t;
            SplitEntries(w + d) == [w + d] && StripMeta(w + d) == w && ProfileOf(o, w) == ProfileOf(o, DELIMITER + t)
  {
    var w := "\U{00A7}\n" + t;
    SlippedSolid(t);
    NoLtClosed(w);
    ClosedAgain(w, d, k);
    WrittenEndsSolid(w, d, k);
    SlippedProfile(o, t, w);
  }

  lemma SlippedProfile(o: Oracles, t: string, w: string)
    requires Lawful(o) && w == "\U{00A7}\n" + t
    ensures ProfileOf(o, w) == ProfileOf(o, DELIMITER + t) && Strip(w) != ""
  {
    assert (DELIMITER + t)[1..] == w;
    ProfileIgnoresEnds(o, w, DELIMITER + t);
    StripOfText(w);
  }

  lemma StripOfText(w: string)
    requires w != "" && !IsSpace(w[0])
    ensures Strip(w) != ""
  {
    NonBlankRstrip(w);
  }

  lemma SlippedSolid(t: string)
    requires Blank(t)
    ensures Solid("\U{00A7}\n" + t) && NoLt("\U{00A7}\n" + t)
  {
    var w := "\U{00A7}\n" + t;
    BlankHasNoMark(t);
    NoMarkIsPlain("\n" + t);
    var mark := w + "\n\U{00A7}";
    assert mark[1..] == ("\n" + t) + "\n\U{00A7}";
    assert mark[0] == '\U{00A7}' && DELIMITER[0] == '\n';
  }

  /** The note that is to be pruned. */
  const FILLER := "z"

  function FillerBlock(o: Oracles): string { NewBlock(o, FILLER, "low", DAY) }

  lemma FillerReads(o: Oracles, e: string)
    requires o == Telling(e) && e != "" && e != FILLER
    ensures Clean(FILLER) == FILLER && Needle(o, FILLER) == Q
  {
    CleanKeeps([FILLER]);
    NoLtNoMarker(FILLER);
    StripTrims(FILLER);
    Told(e, FILLER);
  }

  /** What a prune a hundred days later does to the four entries. */
  lemma FillerGoes(o: Oracles, c: string, t: string)
    requires Lawful(o)
    ensures var parts := [""] + [t + NextComment(o)] + [c + FreshComment(o)] + [FillerBlock(o)];
            KeepParts(o, parts, 100, 30) == Some([""] + [t + NextComment(o)] + [c + FreshComment(o)])
  {
    CommentsWritten(o);
    NewlineIsInert();
    assert ShouldPrune(o, "", 100, 30) == Some(false);
    WrittenReads(t, NextComment(o), 1);
    NotPruned(o, t + NextComment(o), 100, 30, 1);
    NormalStays(o, c);
    LowGoes(o);
    KeepFour(o, "", t + NextComment(o), c + FreshComment(o), FillerBlock(o));
  }

  lemma NormalStays(o: Oracles, c: string)
    requires Lawful(o)
    ensures ShouldPrune(o, c + FreshComment(o), 100, 30) == Some(false)
  {
    CommentsWritten(o);
    NewlineIsInert();
    FieldsReadBack(c, "normal", o.isoDate(DAY), 0, "");
    assert FreshComment(o) + "" == FreshComment(o);
  }

  lemma LowGoes(o: Oracles)
    requires Lawful(o)
    ensures ShouldPrune(o, FillerBlock(o), 100, 30) == Some(true)
  {
    NormalIsValue();
    assert DateSurvives(o, DAY);
    NewlineIsInert();
    FieldsReadBack(FILLER, "low", o.isoDate(DAY), 0, "\n");
    Associates(FILLER, BuildMeta("low", o.isoDate(DAY), 0), "\n");
    ParseIntRoundTrip(0);
  }

  lemma KeepFour(o: Oracles, p: string, q: string, r: string, s: string)
    requires ShouldPrune(o, p, 100, 30) == ShouldPrune(o, q, 100, 30) == ShouldPrune(o, r, 100, 30) == Some(false)
    requires ShouldPrune(o, s, 100, 30) == Some(true)
    ensures KeepParts(o, [p] + [q] + [r] + [s], 100, 30) == Some([p] + [q] + [r])
  {
    KeepLast(o, [], p);
    KeepLast(o, [p], q);
    KeepLast(o, [p] + [q], r);
    KeepLast(o, [p] + [q] + [r], s);
    assert [] + [p] == [p];
  }

  lemma KeepLast(o: Oracles, ps: seq<string>, p: string)
    ensures KeepParts(o, ps + [p], 100, 30) ==
            (match KeepParts(o, ps, 100, 30)
             case None => None
             case Some(kept) =>
               match ShouldPrune(o, p, 100, 30)
               case None => None
               case Some(drop) => Some(if drop then kept else kept + [p]))
  {
    assert (ps + [p])[..|ps|] == ps;
  }

  // ---------- the run ----------

  /** Three adds of the content: stored, split into two, stored again. */
  lemma ThreeAdds(o: Oracles, limit: nat, c: string, t: string)
    requires Lawful(o) && Slips(c, t) && o == Telling(Essence(DELIMITER + t))
    requires limit >= |Rewritten(o, c)| + |Stored(o, c)| + 3
    ensures RunText(o, limit, "", [Again(c), Again(c), Again(c)]) == Rewritten(o, c) + (DELIMITER + Stored(o, c))
  {
    SlipsIsBroken(o, c, t);
    FirstAdded(o, limit, c);
    SecondAdd(o, limit, c);
    ThirdAdd(o, limit, c);
    Thrice(o, limit, Again(c), Stored(o, c), Rewritten(o, c), Rewritten(o, c) + (DELIMITER + Stored(o, c)));
  }

  lemma Thrice(o: Oracles, limit: nat, op: Op, t1: string, t2: string, t3: string)
    requires StepText(o, limit, "", op) == t1 && StepText(o, limit, t1, op) == t2 && StepText(o, limit, t2, op) == t3
    ensures RunText(o, limit, "", [op, op, op]) == t3
  {
    TwoSteps(o, limit, op, op, t1, t2);
    RunSnoc(o, limit, [op, op], op);
    assert [op, op] + [op] == [op, op, op];
  }

  lemma SlipsIsBroken(o: Oracles, c: string, t: string)
    requires Lawful(o) && Slips(c, t) && o == Telling(Essence(DELIMITER + t))
    ensures Broken(o, c)
    ensures SplitEntries(Rewritten(o, c)) == [""] + [t + NextComment(o)]
  {
    SlipsIsUsable(o, c, t);
    RewrittenInTwo(o, c, t);
    PiecesTold(o, t);
    BrokenOf(o, c, "", t + NextComment(o));
  }

  lemma BrokenOf(o: Oracles, c: string, p: string, q: string)
    requires Usable(o, c) && Solid(c) && ProfileOf(o, Shown(c)) == P && SplitEntries(Rewritten(o, c)) == [p] + [q]
    requires ProfileOf(o, StripMeta(p)) == ProfileOf(o, StripMeta(q)) == N
    ensures Broken(o, c)
  {
  }

  lemma SlipsIsUsable(o: Oracles, c: string, t: string)
    requires Slips(c, t) && o == Telling(Essence(DELIMITER + t))
    ensures Usable(o, c) && Solid(c) && ProfileOf(o, Shown(c)) == P
  {
    SlippedMarks(t);
    Told(Essence(DELIMITER + t), DELIMITER + t);
    CleanedIsSolid(c);
  }

  lemma RewrittenInTwo(o: Oracles, c: string, t: string)
    requires Lawful(o) && Slips(c, t)
    ensures Rewritten(o, c) == (DELIMITER + t) + NextComment(o)
    ensures SplitEntries(Rewritten(o, c)) == [""] + [t + NextComment(o)]
  {
    NextOfSlips(c, t);
    CommentsWritten(o);
    SlippedPieces(t, NextComment(o), 1);
  }

  lemma PiecesTold(o: Oracles, t: string)
    requires Lawful(o) && Blank(t) && o == Telling(Essence(DELIMITER + t))
    ensures ProfileOf(o, StripMeta("")) == ProfileOf(o, StripMeta(t + NextComment(o))) == N
  {
    CommentsWritten(o);
    SlippedPieces(t, NextComment(o), 1);
    Told(Essence(DELIMITER + t), "");
    Told(Essence(DELIMITER + t), t);
  }

  /** The filler comes last and is unlike the rest. */
  lemma FillerAdded(o: Oracles, limit: nat, c: string, t: string, s: string)
    requires Lawful(o) && Slips(c, t) && o == Telling(Essence(DELIMITER + t))
    requires s == ((DELIMITER + t) + NextComment(o)) + (DELIMITER + (c + FreshComment(o)))
    requires limit >= |s| + |FillerBlock(o)| + 3
    ensures StepText(o, limit, s + "\n", AddOp(FILLER, "low", DAY)) == FourText(o, c, t)
  {
    FillerIsNew(o, c, t, s + "\n");
    ThirdSolid(o, c, (DELIMITER + t) + NextComment(o), s);
    AppendsTo(s + "\n", s, FillerBlock(o));
    FourParts(o, c, t, s);
    AppendsFiller(o, limit, s + "\n", FourText(o, c, t));
  }

  lemma AppendsFiller(o: Oracles, limit: nat, text: string, text': string)
    requires Clean(FILLER) == FILLER && DuplicateIndex(o, text, FILLER) == None
    requires text' == Appended(text, FillerBlock(o)) && |text'| <= limit
    ensures StepText(o, limit, text, AddOp(FILLER, "low", DAY)) == text'
  {
    assert AddCleaned(o, limit, text, Clean(FILLER), "low", DAY)
        == AddChosen(o, limit, text, None, NewBlock(o, FILLER, "low", DAY), DAY);
  }

  lemma ThirdSolid(o: Oracles, c: string, front: string, s: string)
    requires Lawful(o) && s == front + (DELIMITER + (c + FreshComment(o)))
    ensures s != "" && !IsSpace(s[|s| - 1])
  {
    CommentsWritten(o);
    EndsInComment(c, FreshComment(o), 0);
    var core := c + FreshComment(o);
    assert s[|s| - 1] == core[|core| - 1];
  }

  lemma FillerIsNew(o: Oracles, c: string, t: string, text: string)
    requires Lawful(o) && Slips(c, t) && o == Telling(Essence(DELIMITER + t))
    requires text == (((DELIMITER + t) + NextComment(o)) + (DELIMITER + (c + FreshComment(o)))) + "\n"
    ensures Clean(FILLER) == FILLER && DuplicateIndex(o, text, FILLER) == None
  {
    SlippedEssence(t);
    FillerReads(o, Essence(DELIMITER + t));
    ThreeProfiles(o, c, t, text);
    NotAmong(Profiles(o, SplitEntries(text)));
  }

  lemma ThreeProfiles(o: Oracles, c: string, t: string, text: string)
    requires Lawful(o) && Slips(c, t) && o == Telling(Essence(DELIMITER + t))
    requires text == (((DELIMITER + t) + NextComment(o)) + (DELIMITER + (c + FreshComment(o)))) + "\n"
    ensures var ps := Profiles(o, SplitEntries(text));
            |ps| == 3 && ps[0].norm == "" && ps[1].norm == "" && ps[2] == P
  {
    SlipsIsUsable(o, c, t);
    ThreePieces(o, c, t, text);
    PiecesTold(o, t);
    StoredReads(o, c, "\n");
    ThreeAre(o, SplitEntries(text), "", t + NextComment(o), Stored(o, c));
  }

  lemma ThreePieces(o: Oracles, c: string, t: string, text: string)
    requires Lawful(o) && Slips(c, t) && Solid(c)
    requires text == (((DELIMITER + t) + NextComment(o)) + (DELIMITER + (c + FreshComment(o)))) + "\n"
    ensures SplitEntries(text) == ([""] + [t + NextComment(o)]) + [Stored(o, c)]
  {
    RewrittenInTwo(o, c, t);
    ThirdSplits(o, c);
    BreakInside((DELIMITER + t) + NextComment(o), c + FreshComment(o));
  }

  lemma BreakInside(a: string, core: string)
    ensures (a + (DELIMITER + core)) + "\n" == a + (DELIMITER + (core + "\n"))
  {
  }

  lemma ThreeAre(o: Oracles, ps: seq<string>, p: string, q: string, r: string)
    requires ps == ([p] + [q]) + [r]
    ensures var out := Profiles(o, ps);
            && |out| == 3 && out[0] == ProfileOf(o, StripMeta(p)) && out[1] == ProfileOf(o, StripMeta(q))
            && out[2] == ProfileOf(o, StripMeta(r))
  {
    assert ps[0] == p && ps[1] == q && ps[2] == r;
    ProfileAt(o, ps, 0);
    ProfileAt(o, ps, 1);
    ProfileAt(o, ps, 2);
  }

  lemma SlippedEssence(t: string)
    ensures Essence(DELIMITER + t) != "" && Essence(DELIMITER + t) != FILLER
  {
    EssenceMarks(DELIMITER + t);
    MarksConcat(DELIMITER, t);
    DelimiterMarks();
    MarksOfChar('z');
    assert FILLER == ['z'];
  }

  lemma NotAmong(ps: seq<Profile>)
    requires |ps| == 3 && ps[0].norm == "" && ps[1].norm == "" && ps[2] == P
    ensures FirstSimilar(Q, ps) == None
  {
    Likeness();
    SimilarSymmetric(P, Q, DEDUP_THRESHOLD);
    FirstSimilarSpec(Q, ps, 3);
  }

  /** The file before the prune. */
  function FourText(o: Oracles, c: string, t: string): string {
    Join([""] + [t + NextComment(o)] + [c + FreshComment(o)] + [FillerBlock(o)])
  }

  lemma FourParts(o: Oracles, c: string, t: string, s: string)
    requires s == ((DELIMITER + t) + NextComment(o)) + (DELIMITER + (c + FreshComment(o)))
    ensures FourText(o, c, t) == s + (DELIMITER + FillerBlock(o))
  {
    ThreeText(o, c, t);
    JoinLast([""] + [t + NextComment(o)] + [c + FreshComment(o)], FillerBlock(o));
  }

  lemma ThreeText(o: Oracles, c: string, t: string)
    ensures Join([""] + [t + NextComment(o)] + [c + FreshComment(o)])
            == ((DELIMITER + t) + NextComment(o)) + (DELIMITER + (c + FreshComment(o)))
  {
    var q := t + NextComment(o);
    JoinLast([""] + [q], c + FreshComment(o));
    JoinLast([""], q);
    assert Join([""]) == "" && "" + (DELIMITER + q) == (DELIMITER + t) + NextComment(o);
  }

  lemma FourSolid(o: Oracles, c: string, t: string)
    requires Lawful(o) && Slips(c, t)
    ensures SplitEntries(FourText(o, c, t)) == [""] + [t + NextComment(o)] + [c + FreshComment(o)] + [FillerBlock(o)]
  {
    EmptySolid();
    BlankSolid(o, t);
    CleanedIsSolid(c);
    StoredSolid(o, c, "");
    FillerSolid(o);
    assert (c + FreshComment(o)) + "" == c + FreshComment(o);
    FourSplit("", t + NextComment(o), c + FreshComment(o), FillerBlock(o));
  }

  lemma BlankSolid(o: Oracles, t: string)
    requires Lawful(o) && Blank(t)
    ensures Solid(t + NextComment(o))
  {
    CommentsWritten(o);
    BlankWritten(t, NextComment(o), 1);
    PiecesSolid(t, NextComment(o), 1, [t + NextComment(o)]);
  }

  lemma FourSplit(p: string, q: string, r: string, s: string)
    requires Solid(p) && Solid(q) && Solid(r) && Solid(s)
    ensures SplitEntries(Join([p] + [q] + [r] + [s])) == [p] + [q] + [r] + [s]
  {
    var ps := [p] + [q] + [r] + [s];
    assert ps[0] == p && ps[1] == q && ps[2] == r && ps[3] == s;
    SplitJoin(ps);
  }

  lemma FillerSolid(o: Oracles)
    requires Lawful(o)
    ensures Solid(FillerBlock(o))
  {
    CleanKeeps([FILLER]);
    CleanedIsSolid(FILLER);
    NewBlockSolid(o, FILLER, "low", DAY);
  }

  /** The filler is pruned, and with the space at the front of the file the first line break goes. */
  lemma PruneSlips(o: Oracles, c: string, t: string, u: string)
    requires Lawful(o) && Slips(c, t)
    requires u == (("\U{00A7}\n" + t) + NextComment(o)) + (DELIMITER + (c + FreshComment(o)))
    ensures PruneText(o, FourText(o, c, t), 100, 30) == u + "\n"
  {
    var kept := [""] + [t + NextComment(o)] + [c + FreshComment(o)];
    FourSolid(o, c, t);
    FillerGoes(o, c, t);
    KeptStrips(o, c, t, u);
    FourNotBlank(o, c, t, ((DELIMITER + t) + NextComment(o)) + (DELIMITER + (c + FreshComment(o))));
    PruneFour(o, FourText(o, c, t), kept, FillerBlock(o), u);
  }

  lemma KeptStrips(o: Oracles, c: string, t: string, u: string)
    requires Lawful(o)
    requires u == (("\U{00A7}\n" + t) + NextComment(o)) + (DELIMITER + (c + FreshComment(o)))
    ensures Strip(Join([""] + [t + NextComment(o)] + [c + FreshComment(o)])) == u != ""
  {
    var v := ((DELIMITER + t) + NextComment(o)) + (DELIMITER + (c + FreshComment(o)));
    ThreeText(o, c, t);
    ThirdSolid(o, c, (DELIMITER + t) + NextComment(o), v);
    FrontBreak(t, NextComment(o), DELIMITER + (c + FreshComment(o)));
    SlippedFront(u, v);
  }

  lemma FrontBreak(t: string, d: string, x: string)
    ensures var u := (("\U{00A7}\n" + t) + d) + x;
            ((DELIMITER + t) + d) + x == "\n" + u && u != "" && u[0] == '\U{00A7}'
  {
  }

  lemma PruneFour(o: Oracles, text: string, kept: seq<string>, p: string, u: string)
    requires SplitEntries(text) == kept + [p] && KeepParts(o, kept + [p], 100, 30) == Some(kept)
    requires Strip(text) != "" && Strip(Join(kept)) == u != ""
    ensures PruneText(o, text, 100, 30) == u + "\n"
  {
  }

  lemma SlippedFront(u: string, v: string)
    requires v == "\n" + u && u != "" && u[0] == '\U{00A7}' && !IsSpace(v[|v| - 1])
    ensures Strip(v) == u
  {
    assert v[1..] == u && v[|v| - 1] == u[|u| - 1];
    assert Lstrip(u) == u && Rstrip(u) == u;
  }

  lemma FourNotBlank(o: Oracles, c: string, t: string, v: string)
    requires v == ((DELIMITER + t) + NextComment(o)) + (DELIMITER + (c + FreshComment(o)))
    ensures Strip(FourText(o, c, t)) != ""
  {
    FourParts(o, c, t, v);
    SectionStays(FourText(o, c, t));
  }

  lemma SectionStays(s: string)
    requires |s| > 1 && s[1] == '\U{00A7}'
    ensures Strip(s) != ""
  {
    if Blank(s) { BlankHasNoMark(s); }
    assert RstripPunctuation("") == "";
  }

  /** What the prune left shows the content's text twice. */
  lemma SlippedFound(o: Oracles, c: string, t: string, u: string)
    requires Lawful(o) && Slips(c, t) && o == Telling(Essence(DELIMITER + t))
    requires u == (("\U{00A7}\n" + t) + NextComment(o)) + (DELIMITER + (c + FreshComment(o)))
    ensures Finds(o, u + "\n")
  {
    var w := "\U{00A7}\n" + t;
    SlipsIsUsable(o, c, t);
    SlippedParts(o, c, t, w, u);
    FrontSays(o, t, w);
    SecondIsSection(t);
    StoredSays(o, c, DELIMITER + t);
    PairIsFound(o, u + "\n", w + NextComment(o), Stored(o, c));
  }

  lemma FrontSays(o: Oracles, t: string, w: string)
    requires Lawful(o) && Blank(t) && w == "\U{00A7}\n" + t && ProfileOf(o, DELIMITER + t) == P
    ensures ProfileOf(o, StripMeta(w + NextComment(o))) == P && Strip(StripMeta(w + NextComment(o))) != ""
  {
    CommentsWritten(o);
    SlippedShows(o, t, NextComment(o), 1);
    SlippedProfile(o, t, w);
  }

  lemma StoredSays(o: Oracles, c: string, x: string)
    requires Lawful(o) && Shown(c) == x && ProfileOf(o, x) == P && |x| > 1 && x[1] == '\U{00A7}'
    ensures ProfileOf(o, StripMeta(Stored(o, c))) == P && Strip(StripMeta(Stored(o, c))) != ""
  {
    StoredReads(o, c, "\n");
    SectionStays(x + "\n");
  }

  lemma SlippedParts(o: Oracles, c: string, t: string, w: string, u: string)
    requires Lawful(o) && Solid(c) && Blank(t) && w == "\U{00A7}\n" + t
    requires u == (w + NextComment(o)) + (DELIMITER + (c + FreshComment(o)))
    ensures SplitEntries(u + "\n") == [w + NextComment(o)] + [Stored(o, c)]
  {
    CommentsWritten(o);
    SlippedShows(o, t, NextComment(o), 1);
    PiecesSolid(w, NextComment(o), 1, [w + NextComment(o)]);
    SplitFirst(w + NextComment(o), Stored(o, c));
    OnePart(o, c);
    BreakInside(w + NextComment(o), c + FreshComment(o));
  }

  lemma PairIsFound(o: Oracles, text: string, p: string, q: string)
    requires SplitEntries(text) == [p] + [q]
    requires ProfileOf(o, StripMeta(p)) == P && ProfileOf(o, StripMeta(q)) == P
    requires Strip(StripMeta(p)) != "" && Strip(StripMeta(q)) != ""
    ensures Finds(o, text)
  {
    var ps := [p] + [q];
    assert ps[0] == p && ps[1] == q;
    AuditsBoth(ps);
    ProfileAt(o, ps, 0);
    ProfileAt(o, ps, 1);
    Likeness();
    EdgeFinds(o, text, Profiles(o, ps), 0, 1);
  }

  lemma SlippedSizes(o: Oracles, c: string, t: string, e: string)
    requires Slips(c, t) && o == Telling(e)
    ensures |FreshComment(o)| == |NextComment(o)| == 55 && |FillerBlock(o)| <= 60 && |t| + 3 <= |c|
  {
    ShownClosed(c);
    assert |DELIMITER| == 3 && |"low"| == 3;
    TellingSizes(e);
    assert |IntText(DAY)| == 1;
    MetaSize("low", o.isoDate(DAY), 0);
  }

  /**
   * Agreeing contents need not agree once entries are pruned: such a content is added three times, then
   * another note with low confidence, and when that has gone stale and is pruned two entries are alike.
   */
  lemma PruneUndoes(c: string, t: string, limit: nat) returns (o: Oracles)
    requires Slips(c, t) && limit >= 2 * |c| + 200
    ensures Lawful(o)
    ensures Finds(o, RunText(o, limit, "", [Again(c), Again(c), Again(c)] + [AddOp(FILLER, "low", DAY)] + [PruneOp(100, 30)]))
  {
    var e := Essence(DELIMITER + t);
    o := Telling(e);
    TellingLawful(e);
    SlippedSizes(o, c, t, e);
    SlipRun(o, limit, c, t);
  }

  lemma SlipRun(o: Oracles, limit: nat, c: string, t: string)
    requires Lawful(o) && Slips(c, t) && o == Telling(Essence(DELIMITER + t)) && limit >= 2 * |c| + 200
    requires |FreshComment(o)| == |NextComment(o)| == 55 && |FillerBlock(o)| <= 60 && |t| + 3 <= |c|
    ensures Finds(o, RunText(o, limit, "", [Again(c), Again(c), Again(c)] + [AddOp(FILLER, "low", DAY)] + [PruneOp(100, 30)]))
  {
    var s := ((DELIMITER + t) + NextComment(o)) + (DELIMITER + (c + FreshComment(o)));
    var u := (("\U{00A7}\n" + t) + NextComment(o)) + (DELIMITER + (c + FreshComment(o)));
    RewrittenInTwo(o, c, t);
    BreakInside((DELIMITER + t) + NextComment(o), c + FreshComment(o));
    ThreeAdds(o, limit, c, t);
    FillerAdded(o, limit, c, t, s);
    PruneSlips(o, c, t, u);
    TwoMore(o, limit, [Again(c), Again(c), Again(c)], AddOp(FILLER, "low", DAY), PruneOp(100, 30), s + "\n", FourText(o, c, t), u + "\n");
    SlippedFound(o, c, t, u);
  }

  lemma TwoMore(o: Oracles, limit: nat, ops: seq<Op>, p: Op, q: Op, t1: string, t2: string, t3: string)
    requires RunText(o, limit, "", ops) == t1 && StepText(o, limit, t1, p) == t2 && StepText(o, limit, t2, q) == t3
    ensures RunText(o, limit, "", ops + [p] + [q]) == t3
  {
    RunSnoc(o, limit, ops, p);
    RunSnoc(o, limit, ops + [p], q);
  }
}
