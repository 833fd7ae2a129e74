/** Contents on either side of the conditions for agreement and for the cap, and two runs worked out. */
module MemoryExamples {
  import opened Common
  import opened Text
  import opened EntryFormat
  import opened Similarity
  import opened MemoryStore
  import opened MemoryEntries
  import opened MemoryRuns
  import opened MemoryCounters
  import opened MemorySize
  import opened MemoryGaps
  import opened MemoryEscapes
  import opened MemoryCap
  import opened MemoryAgreement
  import opened MemorySlips

  // ---------- contents that keep to one piece ----------

  predicate NoSection(s: string) { forall i :: 0 <= i < |s| ==> s[i] != '\U{00A7}' }

  lemma {:induction false} ShownNoSection(b: string)
    requires NoSection(b)
    ensures NoSection(Shown(b))
    decreases |b|
  {
    if b != "" {
      var m := MatchLength(b + "\n-->");
      if m == 0 { ShownNoSection(b[1..]); } else if m <= |b| { ShownNoSection(b[m..]); }
    }
  }

  lemma {:induction false} NoSectionFree(s: string)
    requires NoSection(s)
    ensures DelimFree(s + "\n\U{00A7}")
    decreases |s|
  {
    var mark := s + "\n\U{00A7}";
    if s == "" {
      EmptySolid();
      assert mark == "\n\U{00A7}";
    } else {
      NoSectionFree(s[1..]);
      assert mark[1..] == s[1..] + "\n\U{00A7}";
      assert |s| > 1 ==> mark[1] == s[1];
      assert |s| == 1 ==> mark[1] == '\n';
    }
  }

  /** A content without the section sign never comes apart, whatever comments it holds. */
  lemma {:induction false} NoSectionIsWhole(t: string)
    requires NoSection(t)
    ensures Whole(t)
    decreases |t|
  {
    NoSectionFree(t);
    ShownClosed(t);
    if !Closed(t) {
      ShownNoSection(t);
      NoSectionIsWhole(Next(t));
    }
  }

  // ---------- comments inside a line ----------

  /** Text in which no comment and no swallowed line break can start. */
  predicate Inline(s: string) { forall i :: 0 <= i < |s| ==> s[i] != '<' && s[i] != '\n' }

  lemma {:induction false} InlineStays(s: string, x: string)
    requires Inline(s)
    ensures StripMeta(s + x) == s + StripMeta(x)
    decreases |s|
  {
    if s == "" {
      assert s + x == x && "" + StripMeta(x) == StripMeta(x);
    } else {
      InlineStays(s[1..], x);
      assert (s + x)[0] == s[0];
      HeadAndTail(s, x, StripMeta(x));
    }
  }

  /** Any comment, for finding out what is shown behind it. */
  const PROBE := "k"

  /** What is shown of a text is what stripping leaves when a comment follows. */
  lemma ShownIs(b: string, r: string)
    requires StripMeta(b + Comment(PROBE)) == r
    ensures Shown(b) == r
  {
    StripBuilt(b, PROBE, "");
    NewlineIsInert();
    assert Comment(PROBE) + "" == Comment(PROBE) && Shown(b) + "" == Shown(b);
  }

  lemma ProbeStrips()
    ensures StripMeta(Comment(PROBE)) == "" && StripMeta("") == ""
  {
    StripBuilt("", PROBE, "");
    NewlineIsInert();
    assert "" + (Comment(PROBE) + "") == Comment(PROBE);
  }

  /** A whole comment around `kv`, standing in a line. */
  function Mark(kv: string): string { Comment(kv)[1..] }

  lemma MarkStrips(kv: string, x: string)
    requires NoGt(kv) && Trimmed(kv)
    ensures StripMeta(Mark(kv) + x) == StripMeta(x)
  {
    DroppedComment(kv, x);
  }

  /** A line holding one whole comment: what stripping leaves, now and later. */
  lemma MarkedLine(a: string, kv: string, b: string)
    requires Inline(a) && Inline(b) && NoGt(kv) && Trimmed(kv)
    ensures var c := a + (Mark(kv) + b);
            StripMeta(c) == a + b && Shown(c) == a + b && Closed(a + b)
  {
    MarkedThen(a, kv, b, "");
    MarkedThen(a, kv, b, Comment(PROBE));
    ProbeStrips();
    assert (a + b) + "" == a + b && (a + (Mark(kv) + b)) + "" == a + (Mark(kv) + b);
    ShownIs(a + (Mark(kv) + b), a + b);
    InlineClosed(a + b);
  }

  lemma MarkedThen(a: string, kv: string, b: string, x: string)
    requires Inline(a) && Inline(b) && NoGt(kv) && Trimmed(kv)
    ensures StripMeta((a + (Mark(kv) + b)) + x) == (a + b) + StripMeta(x)
  {
    InlineStays(a, Mark(kv) + (b + x));
    MarkStrips(kv, b + x);
    InlineStays(b, x);
    MarkedApart(a, Mark(kv), b, x);
    Associates(a, b, StripMeta(x));
  }

  lemma MarkedApart(a: string, m: string, b: string, x: string)
    ensures (a + (m + b)) + x == a + (m + (b + x))
  {
  }

  lemma {:induction false} InlineClosed(s: string)
    requires Inline(s)
    ensures Closed(s)
    decreases |s|
  {
    if s != "" {
      InlineClosed(s[1..]);
      assert (s + "\n-->")[0] == s[0];
    }
  }

  /** A whole comment in a line does no harm: such a content is stable. */
  lemma MarkedIsStable(a: string, kv: string, b: string)
    requires Inline(a) && Inline(b) && NoGt(kv) && Trimmed(kv) && NoSection(a + b)
    ensures Stable(a + (Mark(kv) + b))
  {
    MarkedLine(a, kv, b);
    NoSectionFree(a + b);
    assert RstripNewlines(a + b) == a + b;
  }

  // ---------- a comment inside a comment ----------

  const NEST_HEAD := "<!-- alpi-"
  const NEST_TAIL := "meta y -->"

  /** A comment in whose middle stands another; stripping the inner one makes the outer one whole. */
  const NESTED := " " + (NEST_HEAD + (Mark("x") + NEST_TAIL))

  lemma NestHead(x: string)
    requires x != "" && x[0] == '<'
    ensures StripMeta(NEST_HEAD + x) == NEST_HEAD + StripMeta(x)
  {
    var s := NEST_HEAD + x;
    var t := NEST_HEAD[1..];
    NestHeadChars(x);
    InlineStays(t, x);
    NoOpening(s);
    StripNoMatch(NEST_HEAD, x, t, StripMeta(x));
  }

  lemma NestHeadChars(x: string)
    requires x != "" && x[0] == '<'
    ensures var s := NEST_HEAD + x;
            |s| > 10 && s[0] == '<' && s[4] == ' ' && s[5] == 'a' && s[10] == '<'
    ensures NEST_HEAD == ['<'] + NEST_HEAD[1..] && Inline(NEST_HEAD[1..])
  {
    assert (NEST_HEAD + x)[10] == x[0];
  }

  lemma NoOpening(s: string)
    requires |s| > 10 && s[0] == '<' && s[4] == ' ' && s[5] == 'a' && s[10] == '<'
    ensures MatchLength(s) == 0
  {
    assert SkipSpace(s, 5) == 5 && SkipSpace(s, 4) == 5;
    assert !MatchesTag(s, 5);
  }

  lemma NestedThen(b: string, x: string)
    requires Inline(b)
    ensures StripMeta((b + NESTED) + x) == (b + (" " + Mark("y"))) + StripMeta(x)
  {
    var inner := Mark("x") + (NEST_TAIL + x);
    InnerStrips(inner, x);
    NestHead(inner);
    InlineStays(b + " ", NEST_HEAD + inner);
    NestedApart(b, Mark("x"), x);
    NestedBecomes(b, StripMeta(x));
  }

  lemma InnerStrips(inner: string, x: string)
    requires inner == Mark("x") + (NEST_TAIL + x)
    ensures StripMeta(inner) == NEST_TAIL + StripMeta(x) && inner != "" && inner[0] == '<'
  {
    var tail := NEST_TAIL + x;
    TailStays(x);
    MarkHead("x", tail);
    assert NoGt("x") && Trimmed("x");
    MarkStrips("x", tail);
  }

  lemma TailStays(x: string)
    ensures StripMeta(NEST_TAIL + x) == NEST_TAIL + StripMeta(x)
  {
    assert Inline(NEST_TAIL);
    InlineStays(NEST_TAIL, x);
  }

  lemma MarkHead(kv: string, x: string)
    ensures Mark(kv) + x != "" && (Mark(kv) + x)[0] == '<'
  {
    CommentEnds(kv);
  }

  lemma NestedApart(b: string, m: string, x: string)
    requires m == Mark("x")
    ensures (b + NESTED) + x == (b + " ") + (NEST_HEAD + (m + (NEST_TAIL + x)))
  {
    assert NESTED == " " + (NEST_HEAD + (m + NEST_TAIL));
  }

  lemma NestedBecomes(b: string, y: string)
    ensures (b + " ") + (NEST_HEAD + (NEST_TAIL + y)) == (b + (" " + Mark("y"))) + y
  {
    assert Mark("y") == "<!-- alpi-meta y -->";
    assert NEST_HEAD + NEST_TAIL == Mark("y");
  }

  lemma NestedReads(b: string)
    requires Inline(b)
    ensures var v := b + (" " + Mark("y"));
            && StripMeta(b + NESTED) == v && Shown(b + NESTED) == v
            && Next(b + NESTED) == v && Shown(v) == b + " " && !Closed(v)
  {
    NestedShows(b, b + (" " + Mark("y")));
    OuterShows(b, b + (" " + Mark("y")));
  }

  lemma NestedShows(b: string, v: string)
    requires Inline(b) && v == b + (" " + Mark("y"))
    ensures StripMeta(b + NESTED) == v && Shown(b + NESTED) == v
  {
    NestedThen(b, "");
    NestedThen(b, Comment(PROBE));
    ProbeStrips();
    assert v + "" == v && (b + NESTED) + "" == b + NESTED;
    ShownIs(b + NESTED, v);
  }

  lemma OuterShows(b: string, v: string)
    requires Inline(b) && v == b + (" " + Mark("y"))
    ensures RstripNewlines(v) == v && Shown(v) == b + " " && !Closed(v)
  {
    CommentEnds("y");
    assert v[|v| - 1] == '>';
    assert (b + " ") + (Mark("y") + "") == v && (b + " ") + "" == b + " ";
    MarkedLine(b + " ", "y", "");
    ShownClosed(v);
  }

  /** Nesting is a case of a content that is not agreeing, so `UnstableEscapes` has a run for it. */
  lemma NestedIsUnstable(b: string)
    requires IsNote(b)
    ensures Clean(b + NESTED) == b + NESTED && !Agreeing(b + NESTED)
  {
    NoteIsInline(b);
    NestedReads(b);
    NestedIsClean(b);
    var v := b + (" " + Mark("y"));
    NoteShows(b);
    MarkHead("y", "");
    assert Mark("y") + "" == Mark("y");
    assert v[|b| + 1] == '<';
    if Blank(v) { BlankHasNoMark(v); }
    NestedNotMute(b, v);
  }

  lemma NoteIsInline(b: string)
    requires IsNote(b)
    ensures Inline(b) && !Blank(b) && Essence(b) == b
  {
    NoteEssence(b);
  }

  lemma NoteShows(b: string)
    requires IsNote(b)
    ensures Essence(b + " ") == b && !Blank(b + " ")
  {
    NoteEssence(b);
    StripFinalSpace(b, ' ');
  }

  lemma NestedIsClean(b: string)
    requires IsNote(b)
    ensures Clean(b + NESTED) == b + NESTED
  {
    var c := b + NESTED;
    NestedLine();
    assert c[0] == b[0] && c[|c| - 1] == NESTED[|NESTED| - 1];
    assert |c| > 1;
    KeepsFront(b, NESTED);
    CleanKeeps([c]);
  }

  lemma NestedLine()
    ensures |NESTED| > 10 && NESTED[0] == ' ' && NESTED[1] == '<' && NESTED[|NESTED| - 1] == '>'
    ensures forall i :: 0 <= i < |NESTED| ==> !IsLineBreak(NESTED[i])
  {
    assert Mark("x") == "<!-- alpi-meta x -->";
  }

  lemma KeepsFront(b: string, x: string)
    requires IsNote(b) && |x| > 10 && x[0] == ' ' && x[1] == '<'
    ensures Keeps(b + x)
  {
    var c := b + x;
    var k := "(alpi will";
    assert forall i :: 0 <= i < 10 ==> k[i] != '<';
    assert c[0] == b[0] && |c| > 1;
    assert k <= c ==> forall i :: 0 <= i < 10 ==> c[i] == k[i];
    if |b| >= 10 {
      assert c[..10] == b[..10];
    } else if |b| == 9 {
      assert c[9] == ' ' && k[9] == 'l';
    } else {
      SecondChar(b, x);
    }
  }

  lemma SecondChar(b: string, x: string)
    requires |x| > 1
    ensures (b + x)[|b| + 1] == x[1]
  {
  }

  lemma NestedNotMute(b: string, v: string)
    requires IsNote(b) && Inline(b) && v == b + (" " + Mark("y")) && Next(b + NESTED) == v && Shown(v) == b + " "
    ensures !Mute(b + NESTED)
  {
    var c := BuildMeta("normal", IntText(DAY), 1);
    RewrittenIsWritten(c);
    NoteShows(b);
    NestedHasNoBreak(b, v);
    PieceShows(b + NESTED, v, c);
  }

  lemma RewrittenIsWritten(c: string)
    requires c == BuildMeta("normal", IntText(DAY), 1)
    ensures Written(c, 1)
  {
    NormalIsValue();
    IntTextIsValue(DAY);
  }

  lemma NestedHasNoBreak(b: string, v: string)
    requires Inline(b) && v == b + (" " + Mark("y"))
    ensures forall i :: 0 <= i < |v| ==> v[i] != '\n'
  {
    assert Mark("y") == "<!-- alpi-meta y -->";
  }

  lemma PieceShows(t: string, v: string, c: string)
    requires Next(t) == v && Written(c, 1) && !Blank(Shown(v)) && c == BuildMeta("normal", IntText(DAY), 1)
    requires forall i :: 0 <= i < |v| ==> v[i] != '\n'
    ensures !Mute(t)
  {
    WrittenShows(v, c, 1);
    WrittenSolid(c, 1);
    DelimFreePrefix(c, "\n\U{00A7}");
    OnePiece(v, c);
    assert v + c in SplitEntries(v + c);
  }

  lemma OnePiece(v: string, c: string)
    requires DelimFree(c) && forall i :: 0 <= i < |v| ==> v[i] != '\n'
    ensures SplitEntries(v + c) == [v + c]
  {
    LineThen(v, c);
    SplitSingle(v + c);
  }

  // ---------- a run with a nested comment ----------

  lemma PlainNote(a: string)
    requires IsNote(a) && NoSection(a)
    ensures Fresh(PlainOracles(), a) && Shown(a) == a
    ensures Needle(PlainOracles(), a) == ProfileOf(PlainOracles(), Shown(a)) == Profile(a, {})
  {
    NoteReads(a);
    NoSectionIsWhole(a);
    ShownClosed(a);
    ClosedStrips(a);
    NoteIsClean(a);
  }

  lemma PlainNested(b: string)
    requires IsNote(b) && NoSection(b)
    ensures var o, c := PlainOracles(), b + NESTED;
            Fresh(o, c) && Needle(o, c) == ProfileOf(o, Shown(c)) == Profile(b + (" " + Mark("y")), {})
  {
    NestedIsClean(b);
    NoteIsInline(b);
    NestedReads(b);
    NestedIsWhole(b);
    NestedEssence(b);
    PlainReads(b + NESTED, b + (" " + Mark("y")));
  }

  lemma PlainReads(c: string, v: string)
    requires StripMeta(c) == v && Shown(c) == v
    ensures Needle(PlainOracles(), c) == ProfileOf(PlainOracles(), Shown(c)) == Profile(Essence(v), {})
  {
  }

  lemma NestedIsWhole(b: string)
    requires NoSection(b)
    ensures Whole(b + NESTED)
  {
    assert Mark("x") == "<!-- alpi-meta x -->";
    assert NoSection(NESTED);
    assert NoSection(b + NESTED);
    NoSectionIsWhole(b + NESTED);
  }

  lemma NestedEssence(b: string)
    requires IsNote(b)
    ensures Essence(b + (" " + Mark("y"))) == b + (" " + Mark("y")) != ""
  {
    var v := b + (" " + Mark("y"));
    CommentEnds("y");
    assert v[0] == b[0] && v[|v| - 1] == '>';
    StripTrims(v);
  }

  lemma OneAdded(o: Oracles, limit: nat, a: string) returns (text: string, es: seq<Entry>)
    requires Lawful(o) && Fresh(o, a) && limit > |Shown(a)|
    ensures Holds(o, text, es) && AllSound(es) && |es| == 1 && es[0] == Newest(a)
    ensures StepText(o, limit, "", Again(a)) == text == Appended("", Stored(o, a))
  {
    NewestSound(o, a);
    AppendHolds(o, "", [], Stored(o, a), Newest(a));
    text, es := Appended("", Stored(o, a)), [] + [Newest(a)];
    OneSize(o, text, es);
    AddsFresh(o, limit, "", [], a);
  }

  /** The file after two contents that are not alike. */
  lemma TwoAdded(o: Oracles, limit: nat, a: string, c: string) returns (text: string, es: seq<Entry>)
    requires Lawful(o) && Fresh(o, a) && Fresh(o, c)
    requires !Similar(Needle(o, c), ProfileOf(o, Shown(a)), DEDUP_THRESHOLD)
    requires limit >= |Shown(a)| + |Shown(c)| + 5
    ensures Holds(o, text, es) && AllSound(es) && |es| == 2 && es[0] == Newest(a) && es[1] == Newest(c)
    ensures RunText(o, limit, "", [Again(a), Again(c)]) == text
    ensures text == Appended(Appended("", Stored(o, a)), Stored(o, c))
  {
    var first, one := OneAdded(o, limit, a);
    ProfileHere(o, one, 0);
    NoneSimilar(Needle(o, c), EntryProfiles(o, one));
    NewestSound(o, c);
    AppendHolds(o, first, one, Stored(o, c), Newest(c));
    text, es := Appended(first, Stored(o, c)), one + [Newest(c)];
    TwoSize(o, text, es);
    AddsFresh(o, limit, first, one, c);
    TwoSteps(o, limit, Again(a), Again(c), first, text);
  }

  /** The second content again: it is found and written back. */
  lemma SecondReinforced(o: Oracles, limit: nat, a: string, c: string, text: string, es: seq<Entry>)
    returns (text': string, es': seq<Entry>)
    requires Lawful(o) && Fresh(o, c) && Holds(o, text, es) && AllSound(es)
    requires |es| == 2 && es[0] == Newest(a) && es[1] == Newest(c) && Needle(o, c) == ProfileOf(o, Shown(c))
    requires !Similar(Needle(o, c), ProfileOf(o, Shown(a)), DEDUP_THRESHOLD)
    ensures Holds(o, text', es') && AllSound(es') && |es'| == 2
    ensures es'[0].text == a && es'[1].text == Next(c)
    ensures StepText(o, limit, text, Again(c)) == text'
  {
    ProfileHere(o, es, 0);
    ProfileHere(o, es, 1);
    SecondLike(Needle(o, c), EntryProfiles(o, es));
    AddsReinforcing(o, limit, text, es, c, 1);
    text', es' := ReinforceAt(o, text, 1, DAY).value, es[1 := Bumped(es[1], DAY)];
  }

  /** Two entries that show similar text are a duplicate to the audit. */
  lemma PairFound(o: Oracles, text: string, es: seq<Entry>)
    requires Lawful(o) && Holds(o, text, es) && AllSound(es) && |es| == 2
    requires Strip(Shown(es[0].text)) != "" && Strip(Shown(es[1].text)) != ""
    requires Similar(ProfileOf(o, Shown(es[0].text)), ProfileOf(o, Shown(es[1].text)), DEDUP_THRESHOLD)
    ensures Finds(o, text)
  {
    var ps := SplitEntries(text);
    HeldProfiles(o, text, es);
    ProfileHere(o, es, 0);
    ProfileHere(o, es, 1);
    ShownNonBlank(o, ps[0], es[0]);
    ShownNonBlank(o, ps[1], es[1]);
    AuditsBoth(ps);
    EdgeFinds(o, text, Profiles(o, ps), 0, 1);
  }

  lemma ShownNonBlank(o: Oracles, p: string, e: Entry)
    requires Lawful(o) && Sound(e) && Shape(o, p, e) && Strip(Shown(e.text)) != ""
    ensures Strip(StripMeta(p)) != ""
  {
    ShapeReads(o, p, e);
    StripFinalSpace(Shown(e.text), '\n');
  }

  /**
   * A note, then twice the beginning of it with a nested comment: three adds after which the audit
   * finds a duplicate although every comment is closed. Comparing character by character suffices.
   */
  lemma NestedEscapes(limit: nat, a: string, b: string)
    requires IsNote(a) && IsNote(b) && NoSection(a) && b <= a && 'B' in a && 'B' !in b
    requires limit >= 2 * |a| + 50
    ensures Finds(PlainOracles(), RunText(PlainOracles(), limit, "", [Again(a), Again(b + NESTED), Again(b + NESTED)]))
  {
    var o, c := PlainOracles(), b + NESTED;
    assert NoSection(b);
    PlainOraclesLawful();
    PlainNote(a);
    PlainNested(b);
    NestedApartFrom(a, b);
    NoteIsInline(b);
    NestedReads(b);
    YLength(b);
    var text, es := TwoAdded(o, limit, a, c);
    var text', es' := SecondReinforced(o, limit, a, c, text, es);
    ThreeSteps(o, limit, a, c, text, text');
    NestedPair(a, b, text', es');
  }

  lemma YLength(b: string)
    ensures |b + (" " + Mark("y"))| == |b| + 21
  {
    assert Mark("y") == "<!-- alpi-meta y -->";
  }

  lemma ThreeSteps(o: Oracles, limit: nat, a: string, c: string, text: string, text': string)
    requires RunText(o, limit, "", [Again(a), Again(c)]) == text && StepText(o, limit, text, Again(c)) == text'
    ensures RunText(o, limit, "", [Again(a), Again(c), Again(c)]) == text'
  {
    RunLast(o, limit, "", [Again(a), Again(c)], Again(c));
    assert [Again(a), Again(c), Again(c)] == [Again(a), Again(c)] + [Again(c)];
  }

  lemma NestedPair(a: string, b: string, text: string, es: seq<Entry>)
    requires IsNote(a) && IsNote(b) && NoSection(a) && b <= a
    requires Lawful(PlainOracles()) && Holds(PlainOracles(), text, es) && AllSound(es) && |es| == 2
    requires es[0].text == a && Shown(a) == a && Shown(es[1].text) == b + " "
    ensures Finds(PlainOracles(), text)
  {
    NoteShows(b);
    NoteReads(a);
    PrefixSimilar(a, b);
    StripTrims(a);
    PairFound(PlainOracles(), text, es);
  }

  lemma NestedApartFrom(a: string, b: string)
    requires IsNote(a) && 'B' in a && 'B' !in b
    ensures !Similar(Profile(b + (" " + Mark("y")), {}), Profile(a, {}), DEDUP_THRESHOLD)
  {
    var v := b + (" " + Mark("y"));
    YChars(b);
    assert '<' !in a;
    LetterMissing(a, v, '<');
    LetterMissing(v, a, 'B');
  }

  lemma YChars(b: string)
    requires 'B' !in b
    ensures '<' in b + (" " + Mark("y")) && 'B' !in b + (" " + Mark("y"))
  {
    assert Mark("y") == "<!-- alpi-meta y -->";
    assert (b + (" " + Mark("y")))[|b| + 1] == '<';
  }

  lemma PrefixSimilar(a: string, b: string)
    requires b != "" && b <= a
    ensures Similar(Profile(a, {}), Profile(b, {}), DEDUP_THRESHOLD)
  {
    assert OccursAt(a, b, 0);
  }

  lemma NestedEscapesHere()
    ensures Finds(PlainOracles(), RunText(PlainOracles(), 5000, "",
                  [Again("AAA BBB"), Again("AAA" + NESTED), Again("AAA" + NESTED)]))
  {
    var a := "AAA BBB";
    assert a[4] == 'B' && a[..3] == "AAA";
    assert "(alpi will"[0] == '(';
    NestedEscapes(5000, a, "AAA");
  }

  // ---------- a content that splits into nothing ----------

  lemma {:induction false} NoLtThen(s: string, x: string)
    requires NoLt(s) && s != "" && s[|s| - 1] != '\n'
    ensures StripMeta(s + x) == s + StripMeta(x)
    decreases |s|
  {
    NoLtMatches(s, x);
    if |s| == 1 {
      assert s[1..] + x == x && "" + StripMeta(x) == StripMeta(x);
      StripNoMatch(s, x, "", StripMeta(x));
    } else {
      NoLtThen(s[1..], x);
      StripNoMatch(s, x, s[1..], StripMeta(x));
    }
    HeadAndTail(s, x, StripMeta(x));
  }

  lemma NoLtMatches(s: string, x: string)
    requires NoLt(s) && s != "" && s[|s| - 1] != '\n'
    ensures MatchLength(s + x) == 0
  {
    assert (s + x)[0] == s[0] && (|s| > 1 ==> (s + x)[1] == s[1]);
  }

  /** Text around and behind two comments is all that is left. */
  lemma TwoMarks(k: string, a: string, l: string, b: string, x: string)
    requires NoGt(k) && Trimmed(k) && NoGt(l) && Trimmed(l) && NoLt(a) && NoLt(b)
    requires a != "" && a[|a| - 1] != '\n' && b != "" && b[|b| - 1] != '\n'
    ensures StripMeta(Mark(k) + (a + (Mark(l) + (b + x)))) == a + (b + StripMeta(x))
  {
    MarkStrips(k, a + (Mark(l) + (b + x)));
    NoLtThen(a, Mark(l) + (b + x));
    MarkStrips(l, b + x);
    NoLtThen(b, x);
  }

  const SECTION := "\n\U{00A7}"
  const STOP := "\n."

  /**
   * `<!-- alpi-meta q -->`, a line of a section sign with `<!-- alpi-meta q -->` behind it, and a full
   * stop: once the comments are stripped there is a delimiter between nothing and a full stop.
   */
  const SPLITTING := Mark("q") + (SECTION + (Mark("q") + STOP))

  lemma SplittingThen(x: string)
    ensures StripMeta(SPLITTING + x) == (DELIMITER + ".") + StripMeta(x)
  {
    SplittingApart(Mark("q"), SECTION, Mark("q"), STOP, x);
    TwoMarks("q", SECTION, "q", STOP, x);
    SplittingJoined(StripMeta(x));
  }

  lemma SplittingApart(m: string, a: string, n: string, b: string, x: string)
    ensures (m + (a + (n + b))) + x == m + (a + (n + (b + x)))
  {
  }

  lemma SplittingJoined(y: string)
    ensures SECTION + (STOP + y) == (DELIMITER + ".") + y
  {
  }

  lemma SplittingIsClean()
    ensures Clean(SPLITTING) == SPLITTING
  {
    var a, b, c := Mark("q"), "\U{00A7}" + Mark("q"), ".";
    SplittingLines();
    ThreeLines(a, b, c);
    CleanKeeps([a, b, c]);
    assert a + ("\n" + (b + ("\n" + c))) == SPLITTING;
  }

  lemma SplittingLines()
    ensures CleanLine(Mark("q")) && CleanLine("\U{00A7}" + Mark("q")) && CleanLine(".")
  {
    MarkQ();
    SectionLine(Mark("q"));
    assert "(alpi will"[0] == '(';
  }

  lemma MarkQ()
    ensures CleanLine(Mark("q")) && |Mark("q")| == 20
  {
    assert Mark("q") == "<!-- alpi-meta q -->";
    MarkLine(Mark("q"));
  }

  lemma MarkLine(m: string)
    requires m == "<!-- alpi-meta q -->"
    ensures CleanLine(m) && |m| == 20
  {
    assert "(alpi will"[0] == '(';
  }

  lemma SectionLine(m: string)
    requires CleanLine(m)
    ensures CleanLine("\U{00A7}" + m)
  {
    var l := "\U{00A7}" + m;
    assert l[0] == '\U{00A7}' && |l| > 1 && l[|l| - 1] == m[|m| - 1];
    assert "(alpi will"[0] == '(';
  }

  lemma ThreeLines(a: string, b: string, c: string)
    ensures JoinLines([a, b, c]) == a + ("\n" + (b + ("\n" + c)))
  {
    assert [a, b, c][1..] == [b, c] && [b, c][1..] == [c];
    assert JoinLines([c]) == c;
    assert JoinLines([b, c]) == b + ("\n" + c);
  }

  lemma SplittingSlips()
    ensures Slips(SPLITTING, ".")
  {
    SplittingIsClean();
    SplittingShows();
    StopIsBlank();
  }

  lemma SplittingShows()
    ensures Shown(SPLITTING) == StripMeta(SPLITTING) == DELIMITER + "."
  {
    SplittingThen("");
    SplittingThen(Comment(PROBE));
    ProbeStrips();
    assert SPLITTING + "" == SPLITTING && (DELIMITER + ".") + "" == DELIMITER + ".";
    ShownIs(SPLITTING, DELIMITER + ".");
  }

  lemma StopIsBlank()
    ensures Blank(".")
  {
    assert Strip(".") == "." && "."[..0] == "" && RstripPunctuation(".") == "";
  }

  lemma SplittingSize()
    ensures |SPLITTING| == 44
  {
    MarkQ();
  }

  /** Such a content agrees over adds, and escapes with a prune. */
  lemma SplittingEscapes() returns (o: Oracles)
    ensures Agreeing(SPLITTING) && Lawful(o)
    ensures Finds(o, RunText(o, 3000, "", [Again(SPLITTING), Again(SPLITTING), Again(SPLITTING)]
                                          + [AddOp(FILLER, "low", DAY)] + [PruneOp(100, 30)]))
  {
    SplittingSlips();
    SplittingSize();
    SlipsIsAgreeing(SPLITTING, ".");
    o := PruneUndoes(SPLITTING, ".", 3000);
  }

  // ---------- a run past the cap ----------

  /** A note behind a whole comment. */
  function Headed(h: string): string { Mark("q") + (" " + h) }

  lemma PlainHeaded(h: string)
    requires IsNote(h) && NoSection(h)
    ensures var o, c := PlainOracles(), Headed(h);
            && Fresh(o, c) && Needle(o, c) == ProfileOf(o, Shown(c)) == Profile(h, {})
            && Springs(c) && Shown(c) == " " + h
  {
    HeadedLine(h);
    HeadedReads(h);
    HeadedShows(h);
    HeadedIsWhole(h);
    PlainReads(Headed(h), " " + h);
  }

  lemma HeadedReads(h: string)
    requires IsNote(h)
    ensures StripMeta(Headed(h)) == " " + h && Shown(Headed(h)) == " " + h && Closed(" " + h)
    ensures MarkerLength(Headed(h)) > 0
  {
    NoteIsInline(h);
    assert "" + Headed(h) == Headed(h) && "" + (" " + h) == " " + h;
    MarkedLine("", "q", " " + h);
    DroppedMatch("q", " " + h);
  }

  lemma HeadedIsWhole(h: string)
    requires NoSection(h)
    ensures Whole(Headed(h))
  {
    assert Mark("q") == "<!-- alpi-meta q -->";
    assert NoSection(Headed(h));
    NoSectionIsWhole(Headed(h));
  }

  lemma HeadedLine(h: string)
    requires IsNote(h)
    ensures Clean(Headed(h)) == Headed(h) != ""
  {
    MarkQ();
    MarkHead("q", "");
    assert Mark("q") + "" == Mark("q");
    BehindMark(Mark("q"), h);
    CleanKeeps([Headed(h)]);
  }

  lemma BehindMark(m: string, h: string)
    requires CleanLine(m) && m[0] == '<' && IsNote(h)
    ensures CleanLine(m + (" " + h))
  {
    var c := m + (" " + h);
    assert c[0] == '<' && c[|c| - 1] == h[|h| - 1] && |c| > 1;
    assert "(alpi will"[0] == '(';
  }

  lemma HeadedShows(h: string)
    requires IsNote(h)
    ensures Essence(" " + h) == h && EndsInText(" " + h) && !Blank(" " + h)
  {
    NoteEssence(h);
    assert (" " + h)[1..] == h;
    assert Strip(" " + h) == Strip(h);
  }

  /**
   * A note, another behind a whole comment, a third, and then the second again without its comment:
   * with the cap at what is visible after three adds, the fourth goes past it.
   */
  lemma HeadedOverruns(limit: nat, x: string, h: string, z: string)
    requires IsNote(x) && IsNote(h) && IsNote(z) && NoSection(x) && NoSection(h) && NoSection(z)
    requires !Similar(Profile(h, {}), Profile(x, {}), DEDUP_THRESHOLD)
    requires !Similar(Profile(z, {}), Profile(x, {}), DEDUP_THRESHOLD)
    requires !Similar(Profile(z, {}), Profile(h, {}), DEDUP_THRESHOLD)
    requires limit == |x| + |h| + |z| + 7
    ensures Overruns(PlainOracles(), limit, [Again(x), Again(Headed(h)), Again(z)], Again(h))
  {
    PlainNote(x);
    PlainNote(z);
    PlainNote(h);
    PlainHeaded(h);
    PlainOraclesLawful();
    ThirdOverruns(PlainOracles(), limit, x, Headed(h), z, h);
  }

  /** Three contents, the second begun with a whole comment, and a fourth found similar to it. */
  lemma ThirdOverruns(o: Oracles, limit: nat, x: string, c: string, z: string, h: string)
    requires Lawful(o) && Fresh(o, x) && Fresh(o, c) && Fresh(o, z) && Fresh(o, h) && Springs(c) && z[0] != '<'
    requires !Similar(Needle(o, c), ProfileOf(o, Shown(x)), DEDUP_THRESHOLD)
    requires !Similar(Needle(o, z), ProfileOf(o, Shown(x)), DEDUP_THRESHOLD)
    requires !Similar(Needle(o, z), ProfileOf(o, Shown(c)), DEDUP_THRESHOLD)
    requires !Similar(Needle(o, h), ProfileOf(o, Shown(x)), DEDUP_THRESHOLD)
    requires Similar(Needle(o, h), ProfileOf(o, Shown(c)), DEDUP_THRESHOLD)
    requires limit == |Shown(x)| + |Shown(c)| + |Shown(z)| + 6
    ensures Overruns(o, limit, [Again(x), Again(c), Again(z)], Again(h))
  {
    var text0, es0 := TwoAdded(o, limit, x, c);
    ProfileHere(o, es0, 0);
    ProfileHere(o, es0, 1);
    SecondLike(Needle(o, z), EntryProfiles(o, es0));
    ThirdSize(o, text0, es0, z);
    var text, es := FillerStep(o, limit, text0, es0, z);
    FourthGoesPast(o, limit, text, es, x, c, h);
    ThirdRun(o, limit, x, c, z, text0, text);
    OverrunsBy(o, limit, [Again(x), Again(c), Again(z)], Again(h), text);
  }

  lemma FourthGoesPast(o: Oracles, limit: nat, text: string, es: seq<Entry>, x: string, c: string, h: string)
    requires Lawful(o) && Holds(o, text, es) && AllSound(es) && |es| == 3 && |StripMeta(text)| == limit
    requires es[0].text == x && es[1].text == c && es[1].tag.Tagged? && Springs(c) && Fresh(o, h)
    requires !Similar(Needle(o, h), ProfileOf(o, Shown(x)), DEDUP_THRESHOLD)
    requires Similar(Needle(o, h), ProfileOf(o, Shown(c)), DEDUP_THRESHOLD)
    ensures |StripMeta(StepText(o, limit, text, Again(h)))| == limit + 1
  {
    ProfileHere(o, es, 0);
    ProfileHere(o, es, 1);
    SecondLike(Needle(o, h), EntryProfiles(o, es));
    LastAdd(o, limit, text, es, h);
  }

  lemma ThirdRun(o: Oracles, limit: nat, x: string, c: string, z: string, text0: string, text: string)
    requires RunText(o, limit, "", [Again(x), Again(c)]) == text0 && StepText(o, limit, text0, Again(z)) == text
    ensures RunText(o, limit, "", [Again(x), Again(c), Again(z)]) == text
  {
    RunLast(o, limit, "", [Again(x), Again(c)], Again(z));
    assert [Again(x), Again(c)] + [Again(z)] == [Again(x), Again(c), Again(z)];
  }

  /** The third note can be as long as it takes to fill any cap. */
  lemma HeadedOverrunsAt(limit: nat, z: string)
    requires z != "" && limit == |z| + 21 && forall i :: 0 <= i < |z| ==> z[i] == 'z'
    ensures Overruns(PlainOracles(), limit, [Again("alpha one"), Again("<!-- alpi-meta q --> hello"), Again(z)], Again("hello"))
  {
    HereHeaded();
    HereNotes();
    FillIsNote(z, 'z');
    HereApart(z);
    HeadedOverruns(limit, "alpha one", "hello", z);
  }

  /** In particular the caps of the two files. */
  lemma HeadedOverrunsHere(z: string, y: string)
    requires |z| == 2979 && |y| == 4979
    requires forall i :: 0 <= i < |y| ==> y[i] == 'z' && (i < |z| ==> z[i] == 'z')
    ensures Overruns(PlainOracles(), 3000, [Again("alpha one"), Again("<!-- alpi-meta q --> hello"), Again(z)], Again("hello"))
    ensures Overruns(PlainOracles(), 5000, [Again("alpha one"), Again("<!-- alpi-meta q --> hello"), Again(y)], Again("hello"))
  {
    HeadedOverrunsAt(3000, z);
    HeadedOverrunsAt(5000, y);
  }

  lemma HereHeaded()
    ensures Headed("hello") == "<!-- alpi-meta q --> hello"
  {
    assert Mark("q") == "<!-- alpi-meta q -->";
  }

  lemma HereNotes()
    ensures IsNote("alpha one") && IsNote("hello")
  {
    assert "(alpi will"[0] == '(';
  }

  lemma HereApart(z: string)
    requires z != "" && forall i :: 0 <= i < |z| ==> z[i] == 'z'
    ensures !Similar(Profile("hello", {}), Profile("alpha one", {}), DEDUP_THRESHOLD)
    ensures !Similar(Profile(z, {}), Profile("alpha one", {}), DEDUP_THRESHOLD)
    ensures !Similar(Profile(z, {}), Profile("hello", {}), DEDUP_THRESHOLD)
  {
    HelloApart();
    assert "alpha one"[2] == 'p' && "hello"[0] == 'h' && z[0] == 'z' && "alpha one"[0] == 'a';
    LetterMissing("hello", "alpha one", 'p');
    LetterMissing("alpha one", z, 'z');
    LetterMissing(z, "alpha one", 'a');
    LetterMissing("hello", z, 'z');
    LetterMissing(z, "hello", 'h');
  }

  lemma HelloApart()
    ensures !Contains("alpha one", "hello")
  {
    var s, t := "alpha one", "hello";
    forall i | 0 <= i <= |s| - |t| ensures !OccursAt(s, t, i) {
      assert s[i..i + |t|][0] == s[i] && s[i..i + |t|][1] == s[i + 1];
      assert t[0] == 'h' && t[1] == 'e';
    }
  }
}
