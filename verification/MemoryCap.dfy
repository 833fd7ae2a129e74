/**
 * The converse of the cap: a content that is not tame, added to a file of a suitable size, takes the
 * file past its cap.
 */
module MemoryCap {
  import opened Common
  import opened Text
  import opened EntryFormat
  import opened Similarity
  import opened MemoryStore
  import opened MemoryEntries
  import opened MemoryRuns
  import opened MemorySize
  import opened MemoryGaps
  import opened MemoryEscapes

  // ---------- runs ----------

  lemma {:induction false} RunConcat(o: Oracles, limit: nat, text: string, a: seq<Op>, b: seq<Op>)
    ensures RunText(o, limit, text, a + b) == RunText(o, limit, RunText(o, limit, text, a), b)
    decreases |b|
  {
    if b == [] {
      assert a + b == a;
    } else {
      var n := |b| - 1;
      RunConcat(o, limit, text, a, b[..n]);
      RunLast(o, limit, text, b[..n], b[n]);
      RunLast(o, limit, text, a + b[..n], b[n]);
      RunLast(o, limit, RunText(o, limit, text, a), b[..n], b[n]);
      LastApart(b);
      assert a + b == (a + b[..n]) + [b[n]];
    }
  }

  lemma RunLast(o: Oracles, limit: nat, text: string, ops: seq<Op>, op: Op)
    ensures RunText(o, limit, text, ops + [op]) == StepText(o, limit, RunText(o, limit, text, ops), op)
  {
    assert (ops + [op])[..|ops|] == ops;
  }

  lemma RunOne(o: Oracles, limit: nat, text: string, op: Op)
    ensures RunText(o, limit, text, [op]) == StepText(o, limit, text, op)
  {
    assert [op][..0] == [];
  }

  // ---------- adding and reinforcing ----------

  /** A content in its cleaned form that deduplication can read and the format carries. */
  predicate Fresh(o: Oracles, t: string) {
    Clean(t) == t != "" && Whole(t) && Needle(o, t).norm != ""
  }

  function Newest(t: string): Entry { Entry(t, Tagged("normal", DAY, 0)) }

  lemma NewestSound(o: Oracles, t: string)
    requires Lawful(o) && Fresh(o, t)
    ensures Sound(Newest(t)) && Shape(o, Stored(o, t), Newest(t))
  {
    CleanedIsSolid(t);
    NormalIsValue();
    var c := t + FreshComment(o);
    assert Stored(o, t)[..|Stored(o, t)| - 1] == c;
    assert Spells(c, t, CommentText(o, Newest(t).tag));
  }

  /** An add that finds nothing similar and fits appends an entry. */
  lemma AddsFresh(o: Oracles, limit: nat, text: string, es: seq<Entry>, t: string)
    requires Lawful(o) && Holds(o, text, es) && AllSound(es) && Fresh(o, t)
    requires FirstSimilar(Needle(o, t), EntryProfiles(o, es)) == None
    requires |StripMeta(Appended(text, Stored(o, t)))| <= limit
    ensures StepText(o, limit, text, Again(t)) == Appended(text, Stored(o, t))
    ensures Holds(o, Appended(text, Stored(o, t)), es + [Newest(t)]) && AllSound(es + [Newest(t)])
  {
    DuplicateFound(o, text, es, t);
    NewestSound(o, t);
    AppendHolds(o, text, es, Stored(o, t), Newest(t));
    NormalIsValue();
    assert AddCleaned(o, limit, text, Clean(t), "normal", DAY)
        == AddChosen(o, limit, text, None, NewBlock(o, t, "normal", DAY), DAY);
  }

  /** An add that finds entry `i` similar reinforces it, whatever the limit. */
  lemma AddsReinforcing(o: Oracles, limit: nat, text: string, es: seq<Entry>, t: string, i: nat)
    requires Lawful(o) && Holds(o, text, es) && AllSound(es) && Clean(t) == t != "" && Needle(o, t).norm != ""
    requires FirstSimilar(Needle(o, t), EntryProfiles(o, es)) == Some(i) && i < |es|
    ensures ReinforceAt(o, text, i, DAY).Some?
    ensures StepText(o, limit, text, Again(t)) == ReinforceAt(o, text, i, DAY).value
    ensures Holds(o, ReinforceAt(o, text, i, DAY).value, es[i := Bumped(es[i], DAY)]) && AllSound(es[i := Bumped(es[i], DAY)])
  {
    DuplicateFound(o, text, es, t);
    ReinforceHolds(o, text, es, i, DAY);
    assert AddCleaned(o, limit, text, Clean(t), "normal", DAY)
        == AddChosen(o, limit, text, Some(i), NewBlock(o, t, "normal", DAY), DAY);
  }

  // ---------- the last two steps ----------

  /** What is visible of an entry text, with or without its final line break. */
  lemma ShapeSize(o: Oracles, p: string, e: Entry)
    requires Lawful(o) && Sound(e) && Shape(o, p, e)
    ensures |Shown(e.text)| <= |StripMeta(p)| <= |Shown(e.text)| + 1
  {
    ShapeReads(o, p, e);
  }

  lemma TwoSize(o: Oracles, text: string, es: seq<Entry>)
    requires Lawful(o) && Holds(o, text, es) && AllSound(es) && |es| == 2
    ensures |StripMeta(text)| <= |Shown(es[0].text)| + |Shown(es[1].text)| + 5
    ensures |StripMeta(text)| >= |Shown(es[0].text)| + |Shown(es[1].text)| + 2
  {
    var ps := SplitEntries(text);
    HeldSize(o, text, es);
    assert ps[1..] == [ps[1]];
    ShapeSize(o, ps[0], es[0]);
    ShapeSize(o, ps[1], es[1]);
  }

  lemma ThreeParts(p: string, q: string, r: string)
    ensures VisibleParts([p, q, r]) == |StripMeta(p)| + Gap(q) + |StripMeta(q)| + Gap(r) + |StripMeta(r)|
  {
    assert [p, q, r][1..] == [q, r] && [q, r][1..] == [r];
    assert VisibleParts([q, r]) == |StripMeta(q)| + (Gap(r) + |StripMeta(r)|);
  }

  /** What becomes visible with a third entry behind one that begins with a whole comment. */
  lemma ThirdSize(o: Oracles, text: string, es: seq<Entry>, z: string)
    requires Lawful(o) && Holds(o, text, es) && AllSound(es) && |es| == 2
    requires es[1].tag.Tagged? && Springs(es[1].text) && Fresh(o, z) && z[0] != '<'
    ensures |StripMeta(Appended(text, Stored(o, z)))| == |Shown(es[0].text)| + |Shown(es[1].text)| + |Shown(z)| + 6
  {
    NewestSound(o, z);
    var block := Stored(o, z);
    var qs := AppendedParts(o, text, es, block, Newest(z));
    AppendHolds(o, text, es, block, Newest(z));
    HeldSize(o, Appended(text, block), es + [Newest(z)]);
    StoredGap(o, z, block);
    SpringParts(o, qs, es, block);
  }

  lemma SpringParts(o: Oracles, qs: seq<string>, es: seq<Entry>, block: string)
    requires Lawful(o) && Cores(o, qs, es) && AllSound(es) && |es| == 2 && es[1].tag.Tagged? && Springs(es[1].text)
    ensures VisibleParts(qs + [block]) == |Shown(es[0].text)| + 2 + |Shown(es[1].text)| + Gap(block) + |StripMeta(block)|
  {
    OneMorePart(qs, block);
    BehindSpring(o, qs[0], qs[1], es[0], es[1], block);
  }

  lemma OneMorePart(qs: seq<string>, block: string)
    requires |qs| == 2
    ensures qs + [block] == [qs[0], qs[1], block]
  {
  }

  lemma BehindSpring(o: Oracles, q0: string, q1: string, e0: Entry, e1: Entry, block: string)
    requires Lawful(o) && Core(o, q0, e0) && Core(o, q1, e1) && Sound(e0) && Sound(e1)
    requires e1.tag.Tagged? && Springs(e1.text)
    ensures VisibleParts([q0, q1, block]) == |Shown(e0.text)| + 2 + |Shown(e1.text)| + Gap(block) + |StripMeta(block)|
  {
    ThreeParts(q0, q1, block);
    CoreShows(o, q0, e0);
    CoreShows(o, q1, e1);
    SpringsAhead(o, q1, e1);
  }

  lemma StoredGap(o: Oracles, z: string, block: string)
    requires Lawful(o) && Fresh(o, z) && z[0] != '<' && block == Stored(o, z)
    ensures Gap(block) == 3 && |StripMeta(block)| == |Shown(z)| + 1
  {
    StoredReads(o, z, "\n");
    assert block[0] == z[0];
  }

  /** The comment a text begins with is still there in the entry. */
  lemma SpringsAhead(o: Oracles, p: string, e: Entry)
    requires Core(o, p, e) && e.tag.Tagged? && MarkerLength(e.text) > 0
    ensures MarkerLength(p) > 0
  {
    assert p == e.text + Comment(KvOf(o, e.tag));
    MarkerExtends(e.text, Comment(KvOf(o, e.tag)));
  }

  /** The second of three entries, begun with a whole comment, grows when it is reinforced. */
  lemma SecondSwells(o: Oracles, text: string, es: seq<Entry>)
    requires Lawful(o) && Holds(o, text, es) && AllSound(es) && |es| == 3
    requires es[1].tag.Tagged? && Springs(es[1].text)
    ensures Swells(SplitEntries(text), 1)
  {
    var p, e := SplitEntries(text)[1], es[1];
    assert Core(o, p, e);
    SpringsAhead(o, p, e);
    CoreShows(o, p, e);
  }

  /** One more add, of a content found similar to that entry, and the cap is passed by a character. */
  lemma LastAdd(o: Oracles, limit: nat, text: string, es: seq<Entry>, d: string)
    requires Lawful(o) && Holds(o, text, es) && AllSound(es) && |es| == 3 && |StripMeta(text)| == limit
    requires es[1].tag.Tagged? && Springs(es[1].text)
    requires Clean(d) == d != "" && Needle(o, d).norm != ""
    requires FirstSimilar(Needle(o, d), EntryProfiles(o, es)) == Some(1)
    ensures |StripMeta(StepText(o, limit, text, Again(d)))| == limit + 1
  {
    SecondSwells(o, text, es);
    DuplicateFound(o, text, es, d);
    NormalIsValue();
    assert Overfills(o, text, Again(d));
    StepSize(o, limit, text, es, Again(d));
  }

  /** The run fills the file exactly to its limit, and one more step takes it one character past. */
  predicate Overruns(o: Oracles, limit: nat, ops: seq<Op>, last: Op) {
    && |StripMeta(RunText(o, limit, "", ops))| == limit
    && |StripMeta(RunText(o, limit, "", ops + [last]))| == limit + 1
  }

  lemma OverrunsBy(o: Oracles, limit: nat, ops: seq<Op>, last: Op, text: string)
    requires RunText(o, limit, "", ops) == text
    requires |StripMeta(text)| == limit && |StripMeta(StepText(o, limit, text, last))| == limit + 1
    ensures Overruns(o, limit, ops, last)
  {
    RunLast(o, limit, "", ops, last);
  }

  // ---------- oracles and filler contents ----------

  function Fill(c: char, n: nat): string { seq(n, i => c) }

  /** Keeps long texts apart and takes all short ones for the same. */
  function Coarse(n: nat): Oracles {
    Oracles(s => if |s| > n then s else if s == "" then "" else "c", s => {}, s => ParseInt(s), d => IntText(d))
  }

  lemma CoarseLawful(n: nat)
    ensures Lawful(Coarse(n))
  {
    var o := Coarse(n);
    forall d ensures DateSurvives(o, d) {
      IntTextIsValue(d);
      ParseIntRoundTrip(d);
    }
  }

  const SHORT := Profile("c", {})

  lemma {:induction false} EssenceShorter(s: string)
    ensures |Essence(s)| <= |s|
  {
    PunctuationShorter(Strip(s));
  }

  lemma {:induction false} PunctuationShorter(s: string)
    ensures |RstripPunctuation(s)| <= |s|
    decreases |s|
  {
    if s != "" && IsPunctuation(s[|s| - 1]) { PunctuationShorter(s[..|s| - 1]); }
  }

  lemma ShortProfile(n: nat, w: string)
    requires |w| <= n && !Blank(w)
    ensures ProfileOf(Coarse(n), w) == SHORT
  {
    EssenceShorter(w);
  }

  lemma FillReads(n: nat, c: char, m: nat)
    requires (c == 'x' || c == 'z') && m > n
    ensures var f := Fill(c, m);
            Fresh(Coarse(n), f) && Shown(f) == f && Needle(Coarse(n), f) == ProfileOf(Coarse(n), f) == Profile(f, {})
  {
    var f := Fill(c, m);
    FillIsNote(f, c);
    NoteIsFresh(f, n);
  }

  lemma FillIsNote(f: string, c: char)
    requires (c == 'x' || c == 'z') && f != "" && forall i :: 0 <= i < |f| ==> f[i] == c
    ensures IsNote(f) && NoMark(f)
  {
    assert f[0] == c && f[|f| - 1] == c;
    assert "(alpi will"[0] == '(';
  }

  lemma NoteIsFresh(f: string, n: nat)
    requires IsNote(f) && NoMark(f) && |f| > n
    ensures Fresh(Coarse(n), f) && Shown(f) == f && Needle(Coarse(n), f) == ProfileOf(Coarse(n), f) == Profile(f, {})
  {
    NoMarkIsPlain(f);
    ShownClosed(f);
    NoLtNoMarker(f);
    NoteIsClean(f);
    NoteEssence(f);
  }

  lemma NoteIsClean(f: string)
    requires IsNote(f)
    ensures Clean(f) == f != ""
  {
    CleanKeeps([f]);
  }

  lemma NoteEssence(f: string)
    requires IsNote(f)
    ensures Essence(f) == f
  {
    StripTrims(f);
  }

  lemma FillsApart(n: nat, m: nat)
    requires n > 0 && m > 0
    ensures var x, z := Profile(Fill('x', n), {}), Profile(Fill('z', m), {});
            !Similar(SHORT, x, DEDUP_THRESHOLD) && !Similar(z, x, DEDUP_THRESHOLD) && !Similar(z, SHORT, DEDUP_THRESHOLD)
  {
    var x, z := Fill('x', n), Fill('z', m);
    assert x[0] == 'x' && z[0] == 'z';
    LetterMissing(x, "c", 'c');
    LetterMissing("c", x, 'x');
    LetterMissing(x, z, 'z');
    LetterMissing(z, x, 'x');
    LetterMissing(z, "c", 'c');
    LetterMissing("c", z, 'z');
  }

  lemma FirstOfTwo(needle: Profile, a: Profile, b: Profile)
    requires !Similar(needle, a, DEDUP_THRESHOLD)
    ensures FirstSimilar(needle, [a, b]) == if Similar(needle, b, DEDUP_THRESHOLD) then Some(1) else None
  {
    assert [a, b][1..] == [b] && [b][1..] == [];
    assert FirstSimilar(needle, [b]) == if Similar(needle, b, DEDUP_THRESHOLD) then Some(0) else None;
  }

  lemma SecondLike(needle: Profile, ps: seq<Profile>)
    requires |ps| >= 2 && !Similar(needle, ps[0], DEDUP_THRESHOLD)
    ensures Similar(needle, ps[1], DEDUP_THRESHOLD) ==> FirstSimilar(needle, ps) == Some(1)
    ensures !Similar(needle, ps[1], DEDUP_THRESHOLD) && |ps| == 2 ==> FirstSimilar(needle, ps) == None
  {
    if Similar(needle, ps[1], DEDUP_THRESHOLD) {
      FirstSimilarSpec(needle, ps, 1);
    } else if |ps| == 2 {
      FirstSimilarSpec(needle, ps, 2);
    }
  }

  // ---------- reaching the stage at which a content springs ----------

  /** A file of a filler and one more entry, whose text is short. */
  predicate Two(n: nat, es: seq<Entry>) {
    && |es| == 2 && es[0].text == Fill('x', n + 1)
    && es[1].tag.Tagged? && |es[1].text| <= n
  }

  lemma UntameShows(t: string)
    requires !Tame(t) && Whole(t) && EndsInText(t)
    ensures !Blank(Shown(t))
    ensures Springs(t) || (!Tame(Next(t)) && |Next(t)| < |t|)
  {
    ShownClosed(t);
    if Closed(t) { ClosedIsTame(t); }
    if Blank(Shown(t)) {
      StripFinalBreaks(Shown(t));
      BlankIsPlain(Next(t));
      ClosedIsTame(Next(t));
    }
  }

  lemma TwoProfiles(n: nat, es: seq<Entry>)
    requires Two(n, es) && !Blank(Shown(es[1].text))
    ensures EntryProfiles(Coarse(n), es) == [Profile(Fill('x', n + 1), {}), SHORT]
    ensures FirstSimilar(SHORT, EntryProfiles(Coarse(n), es)) == Some(1)
  {
    var x := Profile(Fill('x', n + 1), {});
    FillReads(n, 'x', n + 1);
    ShortProfile(n, Shown(es[1].text));
    ShortUnlike(n + 1);
    LikeItself();
    TwoHere(Coarse(n), es, x, SHORT);
    FirstOfTwo(SHORT, x, SHORT);
  }

  lemma TwoHere(o: Oracles, es: seq<Entry>, a: Profile, b: Profile)
    requires |es| == 2 && ProfileOf(o, Shown(es[0].text)) == a && ProfileOf(o, Shown(es[1].text)) == b
    ensures EntryProfiles(o, es) == [a, b]
  {
  }

  lemma ShortUnlike(n: nat)
    requires n > 0
    ensures !Similar(SHORT, Profile(Fill('x', n), {}), DEDUP_THRESHOLD)
  {
    FillsApart(n, 1);
  }

  /** A content unlike both entries is not found. */
  lemma UnlikeBoth(o: Oracles, z: string, es: seq<Entry>, p: Profile, a: Profile, b: Profile)
    requires |es| == 2 && Needle(o, z) == p && !Similar(p, a, DEDUP_THRESHOLD) && !Similar(p, b, DEDUP_THRESHOLD)
    requires ProfileOf(o, Shown(es[0].text)) == a && ProfileOf(o, Shown(es[1].text)) == b
    ensures FirstSimilar(Needle(o, z), EntryProfiles(o, es)) == None
  {
    ProfileHere(o, es, 0);
    ProfileHere(o, es, 1);
    SecondLike(p, EntryProfiles(o, es));
  }

  /** Reinforced often enough, an entry that is not tame gets to a stage where it springs. */
  lemma {:induction false} Reach(n: nat, c: string, text: string, es: seq<Entry>)
    returns (k: nat, text': string, es': seq<Entry>)
    requires Lawful(Coarse(n)) && Holds(Coarse(n), text, es) && AllSound(es) && Two(n, es) && !Tame(es[1].text)
    requires Clean(c) == c != "" && Needle(Coarse(n), c) == SHORT
    ensures Holds(Coarse(n), text', es') && AllSound(es') && Two(n, es') && Springs(es'[1].text)
    ensures forall limit: nat :: RunText(Coarse(n), limit, text, Times(c, k)) == text'
    decreases |es[1].text|
  {
    var o := Coarse(n);
    var t := es[1].text;
    UntameShows(t);
    if Springs(t) {
      k, text', es' := 0, text, es;
    } else {
      TwoProfiles(n, es);
      AddsReinforcing(o, 0, text, es, c, 1);
      var next := ReinforceAt(o, text, 1, DAY).value;
      var j: nat;
      j, text', es' := Reach(n, c, next, es[1 := Bumped(es[1], DAY)]);
      k := j + 1;
      forall limit: nat ensures RunText(o, limit, text, Times(c, k)) == text' {
        AddsReinforcing(o, limit, text, es, c, 1);
        StepThenTimes(o, limit, text, c, j);
      }
    }
  }

  lemma StepThenTimes(o: Oracles, limit: nat, text: string, c: string, j: nat)
    ensures RunText(o, limit, text, Times(c, j + 1)) == RunText(o, limit, StepText(o, limit, text, Again(c)), Times(c, j))
  {
    assert Times(c, j + 1) == [Again(c)] + Times(c, j);
    RunConcat(o, limit, text, [Again(c)], Times(c, j));
    RunOne(o, limit, text, Again(c));
  }

  // ---------- the whole run ----------

  /** The filler, then the content. */
  lemma FirstTwo(n: nat, limit: nat, c: string) returns (text: string, es: seq<Entry>)
    requires Lawful(Coarse(n)) && Fresh(Coarse(n), c) && Needle(Coarse(n), c) == SHORT && |c| <= n
    requires limit >= n + 1 + |Shown(c)| + 5
    ensures Holds(Coarse(n), text, es) && AllSound(es) && Two(n, es) && es[1].text == c
    ensures RunText(Coarse(n), limit, "", [Again(Fill('x', n + 1)), Again(c)]) == text
    ensures text == Appended(Appended("", Stored(Coarse(n), Fill('x', n + 1))), Stored(Coarse(n), c))
  {
    var o, x := Coarse(n), Fill('x', n + 1);
    FillReads(n, 'x', n + 1);
    var first, one := FirstOne(n, limit);
    FillsApart(n + 1, n + 1);
    OneProfile(n, one);
    NewestSound(o, c);
    AppendHolds(o, first, one, Stored(o, c), Newest(c));
    text, es := Appended(first, Stored(o, c)), one + [Newest(c)];
    TwoSize(o, text, es);
    AddsFresh(o, limit, first, one, c);
    TwoSteps(o, limit, Again(x), Again(c), first, text);
  }

  lemma OneProfile(n: nat, one: seq<Entry>)
    requires |one| == 1 && one[0].text == Fill('x', n + 1)
    ensures FirstSimilar(SHORT, EntryProfiles(Coarse(n), one)) == None
  {
    FillReads(n, 'x', n + 1);
    FillsApart(n + 1, n + 1);
    NoneSimilar(SHORT, EntryProfiles(Coarse(n), one));
  }

  lemma FirstOne(n: nat, limit: nat) returns (text: string, es: seq<Entry>)
    requires Lawful(Coarse(n)) && limit >= n + 2
    ensures Holds(Coarse(n), text, es) && AllSound(es) && |es| == 1 && es[0].text == Fill('x', n + 1)
    ensures StepText(Coarse(n), limit, "", Again(Fill('x', n + 1))) == text
    ensures text == Appended("", Stored(Coarse(n), Fill('x', n + 1)))
  {
    var o, x := Coarse(n), Fill('x', n + 1);
    FillReads(n, 'x', n + 1);
    NewestSound(o, x);
    AppendHolds(o, "", [], Stored(o, x), Newest(x));
    text, es := Appended("", Stored(o, x)), [] + [Newest(x)];
    OneSize(o, text, es);
    AddsFresh(o, limit, "", [], x);
  }

  lemma OneSize(o: Oracles, text: string, es: seq<Entry>)
    requires Lawful(o) && Holds(o, text, es) && AllSound(es) && |es| == 1
    ensures |StripMeta(text)| <= |Shown(es[0].text)| + 1
  {
    HeldSize(o, text, es);
    ShapeSize(o, SplitEntries(text)[0], es[0]);
  }

  /** The second filler can be chosen to bring the file to any limit that is not too small. */
  lemma FillerFits(n: nat, limit: nat, es: seq<Entry>) returns (m: nat, z: string)
    requires Two(n, es) && !Blank(Shown(es[1].text)) && limit >= 3 * n + 8
    ensures z == Fill('z', m) && Fresh(Coarse(n), z) && z[0] != '<'
    ensures FirstSimilar(Needle(Coarse(n), z), EntryProfiles(Coarse(n), es)) == None
    ensures limit == |Shown(es[0].text)| + |Shown(es[1].text)| + |Shown(z)| + 6
  {
    m := limit - (n + 1) - |Shown(es[1].text)| - 6;
    FillShows(n, 'z', m);
    FillShows(n, 'x', n + 1);
    FillIsFresh(n, m);
    FillIsNew(n, m, es);
    z := Fill('z', m);
  }

  lemma FillShows(n: nat, c: char, m: nat)
    requires (c == 'x' || c == 'z') && m > n
    ensures |Shown(Fill(c, m))| == m
  {
    FillReads(n, c, m);
  }

  lemma FillIsFresh(n: nat, m: nat)
    requires m > n
    ensures Fresh(Coarse(n), Fill('z', m)) && Fill('z', m)[0] == 'z'
  {
    FillReads(n, 'z', m);
  }

  lemma FillNeedle(n: nat, m: nat)
    requires m > n
    ensures Needle(Coarse(n), Fill('z', m)) == Profile(Fill('z', m), {})
  {
    FillReads(n, 'z', m);
  }

  lemma FillIsNew(n: nat, m: nat, es: seq<Entry>)
    requires Two(n, es) && !Blank(Shown(es[1].text)) && m > n
    ensures FirstSimilar(Needle(Coarse(n), Fill('z', m)), EntryProfiles(Coarse(n), es)) == None
  {
    var x, z := Profile(Fill('x', n + 1), {}), Profile(Fill('z', m), {});
    FillNeedle(n, m);
    FillReads(n, 'x', n + 1);
    ShortProfile(n, Shown(es[1].text));
    FillsApart(n + 1, m);
    UnlikeBoth(Coarse(n), Fill('z', m), es, z, x, SHORT);
  }

  lemma FillerStep(o: Oracles, limit: nat, text: string, es: seq<Entry>, z: string) returns (text': string, es': seq<Entry>)
    requires Lawful(o) && Holds(o, text, es) && AllSound(es) && |es| == 2 && Fresh(o, z)
    requires FirstSimilar(Needle(o, z), EntryProfiles(o, es)) == None
    requires |StripMeta(Appended(text, Stored(o, z)))| == limit
    ensures es' == es + [Newest(z)] && Holds(o, text', es') && AllSound(es') && |StripMeta(text')| == limit
    ensures StepText(o, limit, text, Again(z)) == text'
  {
    AddsFresh(o, limit, text, es, z);
    text', es' := Appended(text, Stored(o, z)), es + [Newest(z)];
  }

  lemma SpringFound(n: nat, es: seq<Entry>)
    requires |es| == 3 && es[0].text == Fill('x', n + 1) && |es[1].text| <= n && !Blank(Shown(es[1].text))
    ensures FirstSimilar(SHORT, EntryProfiles(Coarse(n), es)) == Some(1)
  {
    FillReads(n, 'x', n + 1);
    FillsApart(n + 1, n + 1);
    ShortProfile(n, Shown(es[1].text));
    ProfileHere(Coarse(n), es, 0);
    ProfileHere(Coarse(n), es, 1);
    LikeItself();
    SecondLike(SHORT, EntryProfiles(Coarse(n), es));
  }

  lemma LikeItself()
    ensures Similar(SHORT, SHORT, DEDUP_THRESHOLD)
  {
  }

  lemma ProfileHere(o: Oracles, es: seq<Entry>, i: nat)
    requires i < |es|
    ensures EntryProfiles(o, es)[i] == ProfileOf(o, Shown(es[i].text))
  {
  }

  /** The adds that fill the file: two fillers and otherwise the content alone. */
  function Filling(n: nat, m: nat, c: string, k: nat): seq<Op> {
    ([Again(Fill('x', n)), Again(c)] + Times(c, k)) + [Again(Fill('z', m))]
  }

  /**
   * A content that is not tame overruns any cap that is not too small for it: for some oracles there is
   * a run of adds, of two fillers and this content alone, that fills the file exactly to its limit, and
   * adding the content once more takes it one character past.
   */
  lemma UntameOverruns(c: string, limit: nat) returns (o: Oracles, n: nat, m: nat, k: nat)
    requires Clean(c) == c != "" && Whole(c) && !Tame(c)
    requires limit >= 3 * |c| + 8
    ensures Lawful(o) && Overruns(o, limit, Filling(n, m, c, k), Again(c))
  {
    CoarseLawful(|c|);
    UntameIsFresh(c);
    o, n := Coarse(|c|), |c| + 1;
    m, k := OverrunBy(|c|, limit, c);
  }

  lemma UntameIsFresh(c: string)
    requires Clean(c) == c != "" && Whole(c) && !Tame(c)
    ensures Fresh(Coarse(|c|), c) && Needle(Coarse(|c|), c) == SHORT
  {
    CleanedIsSolid(c);
    UntameShows(c);
    ComparedMarks(c);
    if Blank(StripMeta(c)) {
      BlankHasNoMark(StripMeta(c));
      NoMarkCounts(StripMeta(c));
    }
    ShortProfile(|c|, StripMeta(c));
  }

  lemma {:induction false} NoMarkCounts(s: string)
    requires NoMark(s)
    ensures Marks(s) == 0
    decreases |s|
  {
    if s != "" { NoMarkCounts(s[1..]); }
  }

  lemma OverrunBy(n: nat, limit: nat, c: string) returns (m: nat, k: nat)
    requires Lawful(Coarse(n)) && Fresh(Coarse(n), c) && Needle(Coarse(n), c) == SHORT && |c| == n && !Tame(c)
    requires limit >= 3 * n + 8
    ensures Overruns(Coarse(n), limit, Filling(n + 1, m, c, k), Again(c))
  {
    var text, es := FirstTwo(n, limit, c);
    var text1: string, es1: seq<Entry>, text2: string;
    k, text1, es1 := Reach(n, c, text, es);
    m, text2 := LastTwo(n, limit, c, text1, es1);
    FillingSteps(Coarse(n), limit, n + 1, m, c, k, text, text1, text2);
    OverrunsBy(Coarse(n), limit, Filling(n + 1, m, c, k), Again(c), text2);
  }

  /** The second filler, and then the content again. */
  lemma LastTwo(n: nat, limit: nat, c: string, text: string, es: seq<Entry>) returns (m: nat, text': string)
    requires Lawful(Coarse(n)) && Holds(Coarse(n), text, es) && AllSound(es) && Two(n, es) && Springs(es[1].text)
    requires Fresh(Coarse(n), c) && Needle(Coarse(n), c) == SHORT && limit >= 3 * n + 8
    ensures StepText(Coarse(n), limit, text, Again(Fill('z', m))) == text' && |StripMeta(text')| == limit
    ensures |StripMeta(StepText(Coarse(n), limit, text', Again(c)))| == limit + 1
  {
    var z: string, es': seq<Entry>;
    m, z := FillerFits(n, limit, es);
    ThirdSize(Coarse(n), text, es, z);
    text', es' := FillerStep(Coarse(n), limit, text, es, z);
    SpringFound(n, es');
    LastAdd(Coarse(n), limit, text', es', c);
  }

  lemma FillingSteps(o: Oracles, limit: nat, n: nat, m: nat, c: string, k: nat, text: string, text1: string, text2: string)
    requires RunText(o, limit, "", [Again(Fill('x', n)), Again(c)]) == text
    requires RunText(o, limit, text, Times(c, k)) == text1
    requires StepText(o, limit, text1, Again(Fill('z', m))) == text2
    ensures RunText(o, limit, "", Filling(n, m, c, k)) == text2
  {
    var first := [Again(Fill('x', n)), Again(c)];
    RunConcat(o, limit, "", first, Times(c, k));
    RunLast(o, limit, "", first + Times(c, k), Again(Fill('z', m)));
  }
}
