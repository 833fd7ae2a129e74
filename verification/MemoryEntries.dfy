/**
 * The memory file as a list of entries: what entry texts look like, and that every operation on
 * the text does to the list what its name says.
 */
module MemoryEntries {
  import opened Common
  import opened Text
  import opened EntryFormat
  import opened Similarity
  import opened MemoryStore

  /** What a comment records about an entry; entries written by hand carry none. */
  datatype Tag = Bare | Tagged(conf: string, captured: int, reinforced: nat)

  /** One remembered entry: the text that stands for its body, and what its comment records. */
  datatype Entry = Entry(text: string, tag: Tag)

  /** What a reinforcement writes back of a text. */
  function Next(t: string): (r: string)
    ensures |r| <= |Shown(t)|
  {
    RstripNewlines(Shown(t))
  }

  /** The text stays in one piece however often it is stripped and written back. */
  predicate Whole(t: string)
    decreases |t|
  {
    Solid(t) && (ShownClosed(t); Closed(t) || Whole(Next(t)))
  }

  predicate EndsInText(t: string) { t == "" || t[|t| - 1] != '\n' }

  /** Entries the text format carries. */
  predicate Sound(e: Entry) {
    && EndsInText(e.text) && Whole(e.text)
    && (if e.tag.Bare? then e.text != "" && Trimmed(e.text) && Closed(e.text) else IsValue(e.tag.conf))
  }

  predicate AllSound(es: seq<Entry>) {
    forall i :: 0 <= i < |es| ==> Sound(es[i])
  }

  function KvOf(o: Oracles, t: Tag): string
    requires t.Tagged?
  {
    BuiltKv(t.conf, o.isoDate(t.captured), t.reinforced)
  }

  /** The metadata of an entry's text says what the tag says. */
  predicate Tells(o: Oracles, m: map<string, string>, t: Tag) {
    if t.Bare? then m == map[] else HasFields(m, t.conf, o.isoDate(t.captured), IntText(t.reinforced))
  }

  /** The comment of an entry, if it has one. */
  function CommentText(o: Oracles, t: Tag): string {
    if t.Bare? then "" else Comment(KvOf(o, t))
  }

  /**
   * The texts that stand for a body and a comment: one after the other; for an empty body possibly
   * without the comment's leading line break, which stripping the file removes.
   */
  predicate Spells(p: string, b: string, c: string) {
    p == b + c || (b == "" && c != "" && p == c[1..])
  }

  /** The same, possibly with a final line break. */
  predicate SpellsLine(p: string, b: string, c: string) {
    Spells(p, b, c) || (p != "" && p[|p| - 1] == '\n' && Spells(p[..|p| - 1], b, c))
  }

  predicate Core(o: Oracles, p: string, e: Entry) {
    Spells(p, e.text, CommentText(o, e.tag))
  }

  predicate Shape(o: Oracles, p: string, e: Entry) {
    SpellsLine(p, e.text, CommentText(o, e.tag))
  }

  lemma CommentEnds(kv: string)
    ensures var c := Comment(kv);
            |c| >= 20 && c[0] == '\n' && c[1] == '<' && c[|c| - 1] == '>' && !IsSpace(c[1]) && !IsSpace(c[|c| - 1])
  {
    var c := Comment(kv);
    assert c[0] == COMMENT_HEAD[0] && c[1] == COMMENT_HEAD[1];
    assert c[|c| - 1] == COMMENT_TAIL[3];
  }

  lemma KvShape(o: Oracles, t: Tag)
    requires t.Tagged? && IsValue(t.conf) && IsValue(o.isoDate(t.captured))
    ensures NoGt(KvOf(o, t)) && Trimmed(KvOf(o, t)) && Plain(KvOf(o, t))
  {
    BuiltKvShape(t.conf, o.isoDate(t.captured), t.reinforced);
  }

  lemma NewlineIsInert()
    ensures StripMeta("\n") == "\n" && LastKv("\n") == None
    ensures StripMeta("") == "" && LastKv("") == None
  {
    assert "\n"[1..] == "";
    assert MatchLength("\n") == 0;
  }

  /** A comment whose leading line break is gone is still a whole comment. */
  lemma DroppedComment(kv: string, rest: string)
    requires NoGt(kv) && Trimmed(kv)
    ensures var x := Comment(kv)[1..] + rest;
            StripMeta(x) == StripMeta(rest) && (LastKv(rest) == None ==> LastKv(x) == Some(kv))
  {
    DroppedMatch(kv, rest);
  }

  lemma DroppedMatch(kv: string, rest: string)
    requires NoGt(kv) && Trimmed(kv)
    ensures var y := Comment(kv)[1..] + rest;
            y != "" && y[0] != '\n' && 0 < MatchLength(y) == MarkerLength(y) && y[MatchLength(y)..] == rest && Kv(y) == kv
  {
    CommentMatches(kv, rest);
    KvOfComment(kv, rest);
    CommentEnds(kv);
    DropFirst(Comment(kv), rest);
  }

  lemma DropFirst(c: string, rest: string)
    requires |c| >= 2 && c[0] == '\n' && c[1] == '<' && MatchLength(c + rest) == |c|
    requires MarkerLength((c + rest)[1..]) > 0
    ensures c[1..] + rest == (c + rest)[1..]
    ensures MatchLength(c[1..] + rest) == MarkerLength(c[1..] + rest) == |c| - 1
    ensures (c[1..] + rest)[|c| - 1..] == rest
  {
    assert (c + rest)[0] == c[0];
  }

  // ---------- bodies without a comment ----------

  /** Text that cannot turn a closed body before it into the start of a comment. */
  predicate Follows(x: string) {
    x == "" || x == "\n" || Breaks(x)
  }

  lemma {:induction false} SkipSpaceExtends(s: string, y: string, i: nat)
    requires i <= |s| && SkipSpace(s, i) < |s|
    ensures SkipSpace(s + y, i) == SkipSpace(s, i)
    decreases |s| - i
  {
    if i < |s| && IsSpace(s[i]) {
      SkipSpaceExtends(s, y, i + 1);
    }
  }

  lemma OpeningExtends(s: string, y: string)
    requires Opening(s) > 0
    ensures Opening(s + y) == Opening(s)
  {
    SkipSpaceExtends(s, y, 4);
    assert forall j :: 0 <= j < |s| ==> (s + y)[j] == s[j];
  }

  lemma MarkerExtends(s: string, y: string)
    requires MarkerLength(s) > 0
    ensures MarkerLength(s + y) == MarkerLength(s)
  {
    OpeningExtends(s, y);
    FindGtIs(s + y, Opening(s), FindGt(s, Opening(s)));
  }

  lemma TailExtends(s: string, y: string)
    requires s != ""
    ensures (s + y)[1..] == s[1..] + y
  {
  }

  lemma MatchExtends(s: string, y: string)
    requires MatchLength(s) > 0
    ensures MatchLength(s + y) > 0
  {
    assert s != "" && (s + y)[0] == s[0];
    if s[0] == '\n' && MarkerLength(s[1..]) > 0 {
      MarkerExtends(s[1..], y);
      TailExtends(s, y);
    } else {
      MarkerExtends(s, y);
    }
  }

  /** An opening in `b` that the bare closer does not complete, no following text completes. */
  lemma ClosedMarker(b: string, x: string)
    requires b != "" && MarkerLength(b + "\n-->") == 0
    requires Breaks(x)
    ensures MarkerLength(b + x) == 0
  {
    var y := "\n-->";
    OpeningIndependent(b, x, y);
    var p := Opening(b + y);
    if p > 0 {
      FindGtAcross(b, y, p);
      var q := FindGt(b, p);
      assert forall j :: 0 <= j < |b| ==> (b + x)[j] == b[j] && (b + y)[j] == b[j];
      FindGtIs(b + x, p, q);
    }
  }

  lemma ClosedNoMatch(b: string, x: string)
    requires b != "" && MatchLength(b + "\n-->") == 0 && Follows(x)
    ensures MatchLength(b + x) == 0
  {
    if x == "" {
      assert b + x == b;
      if MatchLength(b) > 0 { MatchExtends(b, "\n-->"); }
    } else if x == "\n" {
      assert (b + x) + "-->" == b + "\n-->";
      if MatchLength(b + x) > 0 { MatchExtends(b + x, "-->"); }
    } else {
      ClosedMarker(b, x);
      if b[0] == '\n' {
        assert (b + x)[1..] == b[1..] + x && (b + "\n-->")[1..] == b[1..] + "\n-->";
        if |b| > 1 {
          ClosedMarker(b[1..], x);
        } else {
          assert b[1..] + x == x;
        }
      }
    }
  }

  /** A closed body stays visible whatever harmless text follows. */
  lemma {:induction false} ClosedThen(b: string, x: string)
    requires Closed(b) && Follows(x)
    ensures StripMeta(b + x) == b + StripMeta(x)
    ensures LastKv(b + x) == LastKv(x)
    decreases |b|
  {
    if b == "" {
      assert b + x == x;
    } else {
      ClosedNoMatch(b, x);
      ClosedThen(b[1..], x);
      HeadAndTail(b, x, StripMeta(x));
    }
  }

  lemma ClosedStrips(b: string)
    requires Closed(b)
    ensures StripMeta(b) == b && LastKv(b) == None
  {
    ClosedThen(b, "");
    assert b + "" == b;
    assert StripMeta("") == "" && LastKv("") == None;
  }

  // ---------- reading ----------

  /** Reading an entry text gives back what is shown of its body, and its tag. */
  lemma CoreReads(o: Oracles, p: string, e: Entry, rest: string)
    requires Lawful(o) && Sound(e) && Core(o, p, e) && (rest == "" || rest == "\n")
    ensures StripMeta(p + rest) == Shown(e.text) + rest
    ensures Tells(o, ParseMeta(p + rest), e.tag)
  {
    if e.tag.Bare? {
      BareReads(e.text, p, rest);
    } else {
      assert DateSurvives(o, e.tag.captured);
      TaggedReads(e.text, e.tag.conf, o.isoDate(e.tag.captured), e.tag.reinforced, p, rest);
    }
  }

  lemma BareReads(b: string, p: string, rest: string)
    requires Closed(b) && Spells(p, b, "") && (rest == "" || rest == "\n")
    ensures StripMeta(p + rest) == Shown(b) + rest && LastKv(p + rest) == None
  {
    NewlineIsInert();
    ShownClosed(b);
    ClosedThen(b, rest);
    assert b + "" == b;
  }

  lemma TaggedReads(b: string, conf: string, captured: string, n: int, p: string, rest: string)
    requires IsValue(conf) && IsValue(captured) && (rest == "" || rest == "\n")
    requires Spells(p, b, BuildMeta(conf, captured, n))
    ensures StripMeta(p + rest) == Shown(b) + rest
    ensures HasFields(ParseMeta(p + rest), conf, captured, IntText(n))
  {
    NewlineIsInert();
    if p == b + BuildMeta(conf, captured, n) {
      Associates(b, BuildMeta(conf, captured, n), rest);
      FieldsReadBack(b, conf, captured, n, rest);
      BuiltKvShape(conf, captured, n);
      StripBuilt(b, BuiltKv(conf, captured, n), rest);
    } else {
      DroppedReads(conf, captured, n, rest);
      assert "" + rest == rest;
    }
  }

  lemma DroppedReads(conf: string, captured: string, n: int, rest: string)
    requires IsValue(conf) && IsValue(captured) && (rest == "" || rest == "\n")
    ensures var x := BuildMeta(conf, captured, n)[1..] + rest;
            StripMeta(x) == rest && HasFields(ParseMeta(x), conf, captured, IntText(n))
  {
    NewlineIsInert();
    BuiltKvShape(conf, captured, n);
    DroppedComment(BuiltKv(conf, captured, n), rest);
    TokensOfBuilt(conf, captured, n);
  }

  /** A text of an entry is its core and at most a line break. */
  lemma SplitLine(p: string, b: string, c: string) returns (q: string, rest: string)
    requires SpellsLine(p, b, c)
    ensures p == q + rest && Spells(q, b, c) && (rest == "" || rest == "\n")
  {
    if Spells(p, b, c) {
      q, rest := p, "";
      assert p == p + "";
    } else {
      q, rest := p[..|p| - 1], "\n";
    }
  }

  lemma ShapeReads(o: Oracles, p: string, e: Entry)
    requires Lawful(o) && Sound(e) && Shape(o, p, e)
    ensures StripMeta(p) == Shown(e.text) || StripMeta(p) == Shown(e.text) + "\n"
    ensures Tells(o, ParseMeta(p), e.tag)
    ensures ProfileOf(o, StripMeta(p)) == ProfileOf(o, Shown(e.text))
  {
    var c, rest := SplitLine(p, e.text, CommentText(o, e.tag));
    CoreReads(o, c, e, rest);
    assert Shown(e.text) + "" == Shown(e.text);
    StripFinalSpace(Shown(e.text), '\n');
    ProfileIgnoresEnds(o, Shown(e.text) + "\n", Shown(e.text));
  }

  lemma {:induction false} SolidThen(b: string, x: string)
    requires Solid(b) && DelimFree(x) && |x| >= 2 && x[0] == '\n'
    ensures DelimFree(b + x)
    decreases |b|
  {
    if b == "" {
      assert b + x == x;
    } else {
      var mark, whole := b + "\n\U{00A7}", b + x;
      assert mark[1..] == b[1..] + "\n\U{00A7}";
      assert mark[0] == whole[0] && mark[1] == whole[1];
      assert |b| == 1 ==> whole[1] == '\n';
      assert |b| > 1 ==> mark[2] == whole[2];
      assert whole[1..] == b[1..] + x;
      SolidThen(b[1..], x);
    }
  }

  /** Entry texts stay in one piece between delimiters. */
  lemma ShapeSolid(o: Oracles, p: string, e: Entry)
    requires Lawful(o) && Sound(e) && Shape(o, p, e)
    ensures Solid(p)
  {
    var c, rest := SplitLine(p, e.text, CommentText(o, e.tag));
    if e.tag.Bare? {
      BareSolid(e.text, rest);
      assert e.text + "" == e.text;
    } else {
      assert DateSurvives(o, e.tag.captured);
      KvShape(o, e.tag);
      SpelledSolid(e.text, KvOf(o, e.tag), c, rest);
    }
  }

  lemma SpelledSolid(b: string, kv: string, q: string, rest: string)
    requires Solid(b) && Plain(kv) && Spells(q, b, Comment(kv)) && (rest == "" || rest == "\n")
    ensures Solid(q + rest)
  {
    CommentSolid(b, kv, rest);
    if q == b + Comment(kv) {
      assert q + rest == b + (Comment(kv) + rest);
    }
  }

  lemma BareSolid(b: string, rest: string)
    requires Solid(b) && (rest == "" || rest == "\n")
    ensures Solid(b + rest)
  {
    var m := "\n\U{00A7}";
    MarkFree(rest);
    SolidThen(b, rest + m);
    assert (b + rest) + m == b + (rest + m);
  }

  lemma CommentSolid(b: string, kv: string, rest: string)
    requires Solid(b) && Plain(kv) && (rest == "" || rest == "\n")
    ensures Solid(b + (Comment(kv) + rest)) && Solid(Comment(kv)[1..] + rest)
  {
    var c := Comment(kv);
    var mark := rest + "\n\U{00A7}";
    MarkFree(rest);
    CommentEnds(kv);
    LineThen(c[1..], mark);
    NewlineThen(c, mark);
    SolidThen(b, c + mark);
    Regroup(b, c, rest, "\n\U{00A7}");
  }

  lemma NewlineThen(c: string, mark: string)
    requires |c| >= 2 && c[1] == '<' && DelimFree(c[1..] + mark)
    ensures DelimFree(c + mark)
  {
    assert (c + mark)[1..] == c[1..] + mark;
    assert (c + mark)[1] == '<';
  }

  lemma Regroup(b: string, c: string, rest: string, m: string)
    requires c != ""
    ensures b + (c + (rest + m)) == (b + (c + rest)) + m
    ensures c[1..] + (rest + m) == (c[1..] + rest) + m
  {
  }

  lemma MarkFree(rest: string)
    requires rest == "" || rest == "\n"
    ensures DelimFree(rest + "\n\U{00A7}")
  {
    var m := "\n\U{00A7}";
    assert m[1..] == "\U{00A7}";
    assert DelimFree(m);
    if rest == "\n" {
      assert ("\n" + m)[1..] == m;
      assert ("\n" + m)[1] == '\n';
    } else {
      assert rest + m == m;
    }
  }

  /** How a comment, or no comment, begins and ends. */
  predicate Framed(b: string, c: string) {
    if c == "" then b != "" && Trimmed(b) else |c| >= 2 && c[0] == '\n' && !IsSpace(c[1]) && !IsSpace(c[|c| - 1])
  }

  /** The entry after the space before its text has been stripped. */
  function Trim(e: Entry): Entry { Entry(Lstrip(e.text), e.tag) }

  /** Trimming either end of an entry text leaves a text of the same entry, or of the trimmed one. */
  lemma ShapeTrims(o: Oracles, p: string, e: Entry)
    requires Sound(e) && Shape(o, p, e)
    ensures Core(o, Rstrip(p), e) && Shape(o, Lstrip(p), Trim(e))
    ensures Rstrip(p) != "" && Lstrip(p) != ""
    ensures Core(o, p, e) ==> Core(o, Lstrip(p), Trim(e))
  {
    if e.tag.Tagged? { CommentEnds(KvOf(o, e.tag)); }
    SpelledRstrip(p, e.text, CommentText(o, e.tag));
    SpelledLstrip(p, e.text, CommentText(o, e.tag));
  }

  lemma SpelledRstrip(p: string, b: string, c: string)
    requires Framed(b, c) && SpellsLine(p, b, c)
    ensures Spells(Rstrip(p), b, c) && Rstrip(p) != ""
  {
    var q, rest := SplitLine(p, b, c);
    assert q + "" == q;
  }

  lemma SpelledLstrip(p: string, b: string, c: string)
    requires Framed(b, c) && SpellsLine(p, b, c)
    ensures SpellsLine(Lstrip(p), Lstrip(b), c) && Lstrip(p) != ""
    ensures Spells(p, b, c) ==> Spells(Lstrip(p), Lstrip(b), c)
  {
    var q, rest := SplitLine(p, b, c);
    var r := CoreLstrip(q, b, c, rest);
    assert (r + "\n")[..|r|] == r && r + "" == r;
    if Spells(p, b, c) {
      var r' := CoreLstrip(p, b, c, "");
      assert p + "" == p && r' + "" == r';
    }
  }

  lemma CoreLstrip(q: string, b: string, c: string, rest: string) returns (r: string)
    requires Framed(b, c) && Spells(q, b, c) && (rest == "" || rest == "\n")
    ensures Spells(r, Lstrip(b), c) && Lstrip(q + rest) == r + rest && r != ""
  {
    if c == "" {
      r := b;
      assert q == b && (q + rest)[0] == b[0];
      assert b + c == b;
    } else if q == b + c {
      r := if Lstrip(b) == "" then c[1..] else Lstrip(b) + c;
      LineApart(b, c, rest);
      LstripBefore(b + "\n", c[1..] + rest);
      LstripLine(b, c, rest);
    } else {
      r := q;
      assert (q + rest)[0] == c[1];
    }
  }

  lemma LineApart(b: string, c: string, rest: string)
    requires c != "" && c[0] == '\n'
    ensures (b + c) + rest == (b + "\n") + (c[1..] + rest)
  {
  }

  lemma LstripLine(b: string, c: string, rest: string)
    requires c != "" && c[0] == '\n'
    ensures Lstrip(b + "\n") + (c[1..] + rest) == (if Lstrip(b) == "" then c[1..] else Lstrip(b) + c) + rest
  {
    if Lstrip(b) == "" {
      LstripBlank(b);
      assert "" + (c[1..] + rest) == c[1..] + rest;
    } else {
      LstripPrefix(b, "\n");
      LineApart(Lstrip(b), c, rest);
    }
  }

  lemma {:induction false} LstripBlank(b: string)
    requires Lstrip(b) == ""
    ensures Lstrip(b + "\n") == ""
    decreases |b|
  {
    if b == "" {
      assert (b + "\n")[1..] == "";
    } else {
      assert (b + "\n")[1..] == b[1..] + "\n";
      LstripBlank(b[1..]);
    }
  }

  // ---------- the file as a list of entries ----------

  /** Line breaks after a comment are found only at the end of the file. */
  predicate ShapesAll(o: Oracles, ps: seq<string>, es: seq<Entry>) {
    && |ps| == |es|
    && forall i :: 0 <= i < |es| ==> Shape(o, ps[i], es[i]) && (i < |es| - 1 ==> Core(o, ps[i], es[i]))
  }

  /** `text` is a file holding exactly the entries `es`. */
  predicate Holds(o: Oracles, text: string, es: seq<Entry>) {
    if es == [] then text == "" else ShapesAll(o, SplitEntries(text), es)
  }

  lemma JoinHolds(o: Oracles, ps: seq<string>, es: seq<Entry>)
    requires Lawful(o) && AllSound(es) && es != [] && ShapesAll(o, ps, es)
    ensures Holds(o, Join(ps), es) && SplitEntries(Join(ps)) == ps
  {
    forall i | 0 <= i < |ps| ensures Solid(ps[i]) {
      ShapeSolid(o, ps[i], es[i]);
    }
    SplitJoin(ps);
  }

  function EntryProfiles(o: Oracles, es: seq<Entry>): (ps: seq<Profile>)
    ensures |ps| == |es|
  {
    seq(|es|, i requires 0 <= i < |es| => ProfileOf(o, Shown(es[i].text)))
  }

  lemma HeldProfiles(o: Oracles, text: string, es: seq<Entry>)
    requires Lawful(o) && AllSound(es) && es != [] && Holds(o, text, es)
    ensures Profiles(o, SplitEntries(text)) == EntryProfiles(o, es)
  {
    var ps := SplitEntries(text);
    forall i | 0 <= i < |es| ensures ProfileOf(o, StripMeta(ps[i])) == ProfileOf(o, Shown(es[i].text)) {
      ShapeReads(o, ps[i], es[i]);
    }
  }

  // ---------- reinforcing ----------

  function Bumped(e: Entry, today: int): Entry {
    Entry(Next(e.text), match e.tag
      case Bare => Tagged(DEFAULT_CONFIDENCE, today, 1)
      case Tagged(conf, captured, n) => Tagged(if conf == "low" && n + 1 >= 2 then "normal" else conf, captured, n + 1))
  }

  function WholeText(o: Oracles, e: Entry): string
    requires e.tag.Tagged?
  {
    e.text + Comment(KvOf(o, e.tag))
  }

  lemma BumpReads(o: Oracles, p: string, e: Entry, today: int)
    requires Lawful(o) && Sound(e) && Shape(o, p, e)
    ensures BumpEntry(o, p, today) == Some(WholeText(o, Bumped(e, today))) && Sound(Bumped(e, today))
  {
    ShapeReads(o, p, e);
    FinalBreakGoes(Shown(e.text));
    NormalIsValue();
    NextIsWhole(e.text);
    if e.tag.Bare? {
      BumpBare(o, p, e, today);
    } else {
      assert DateSurvives(o, e.tag.captured);
      BumpTagged(o, p, e, today);
    }
  }

  lemma FinalBreakGoes(s: string)
    ensures RstripNewlines(s + "\n") == RstripNewlines(s)
  {
    assert (s + "\n")[..|s|] == s;
  }

  lemma NextIsWhole(t: string)
    requires Whole(t) && EndsInText(t)
    ensures Whole(Next(t)) && EndsInText(Next(t))
    ensures Closed(t) ==> Next(t) == t
  {
    ShownClosed(t);
    if Closed(t) { assert RstripNewlines(t) == t; }
  }

  lemma BumpTagged(o: Oracles, p: string, e: Entry, today: int)
    requires e.tag.Tagged? && o.parseDate(o.isoDate(e.tag.captured)) == Some(e.tag.captured)
    requires HasFields(ParseMeta(p), e.tag.conf, o.isoDate(e.tag.captured), IntText(e.tag.reinforced))
    requires RstripNewlines(StripMeta(p)) == Next(e.text)
    ensures BumpEntry(o, p, today) == Some(WholeText(o, Bumped(e, today)))
  {
    ParseIntRoundTrip(e.tag.reinforced);
    LaterBump(o, p, Next(e.text), e.tag.conf, o.isoDate(e.tag.captured), e.tag.captured,
              IntText(e.tag.reinforced), e.tag.reinforced, today);
    BumpIsWhole(o, e, today);
  }

  lemma BumpIsWhole(o: Oracles, e: Entry, today: int)
    requires e.tag.Tagged?
    ensures Bump(o, Next(e.text), e.tag.conf, Some(e.tag.reinforced), Some(e.tag.captured))
            == Some(WholeText(o, Bumped(e, today)))
  {
  }

  lemma LaterBump(o: Oracles, p: string, body: string, conf: string, captured: string, d: int,
                  reinforced: string, n: int, today: int)
    requires HasFields(ParseMeta(p), conf, captured, reinforced) && RstripNewlines(StripMeta(p)) == body
    requires o.parseDate(captured) == Some(d) && ParseInt(reinforced) == Some(n)
    ensures BumpEntry(o, p, today) == Bump(o, body, conf, Some(n), Some(d))
  {
  }

  lemma BumpBare(o: Oracles, p: string, e: Entry, today: int)
    requires e.tag.Bare? && ParseMeta(p) == map[] && RstripNewlines(StripMeta(p)) == Next(e.text)
    ensures BumpEntry(o, p, today) == Some(WholeText(o, Bumped(e, today)))
  {
    ZeroParses();
    FirstBump(o, p, Next(e.text), today);
  }

  lemma ZeroParses()
    ensures ParseInt("0") == Some(0)
  {
    assert IsDecimal("0") && "0"[..0] == "";
  }

  lemma FirstBump(o: Oracles, p: string, body: string, today: int)
    requires ParseMeta(p) == map[] && RstripNewlines(StripMeta(p)) == body && ParseInt("0") == Some(0)
    ensures BumpEntry(o, p, today) == Some(body + BuildMeta(DEFAULT_CONFIDENCE, o.isoDate(today), 1))
  {
  }

  lemma NormalIsValue()
    ensures IsValue("normal") && IsValue("low") && IsValue("high")
  {
  }

  lemma ReinforceHolds(o: Oracles, text: string, es: seq<Entry>, i: nat, today: int)
    requires Lawful(o) && AllSound(es) && Holds(o, text, es) && i < |es|
    ensures ReinforceAt(o, text, i, today).Some?
    ensures Holds(o, ReinforceAt(o, text, i, today).value, es[i := Bumped(es[i], today)])
    ensures AllSound(es[i := Bumped(es[i], today)])
  {
    var ps := SplitEntries(text);
    var e := Bumped(es[i], today);
    BumpReads(o, ps[i], es[i], today);
    SetEntry(o, ps, es, i, WholeText(o, e), e);
    JoinHolds(o, ps[i := WholeText(o, e)], es[i := e]);
  }

  lemma SetEntry(o: Oracles, ps: seq<string>, es: seq<Entry>, i: nat, p: string, e: Entry)
    requires ShapesAll(o, ps, es) && AllSound(es) && i < |es|
    requires Core(o, p, e) && Sound(e)
    ensures ShapesAll(o, ps[i := p], es[i := e]) && AllSound(es[i := e])
  {
  }

  /** An add that normalises to nothing, on an empty file, leaves one entry without a body. */
  lemma ReinforceEmptyFile(o: Oracles, today: int)
    requires Lawful(o)
    ensures var e := Entry("", Tagged(DEFAULT_CONFIDENCE, today, 1));
            Sound(e) && ReinforceAt(o, "", 0, today).Some? && Holds(o, ReinforceAt(o, "", 0, today).value, [e])
  {
    var e := Entry("", Tagged(DEFAULT_CONFIDENCE, today, 1));
    NormalIsValue();
    MarkFree("");
    assert "" + "\n\U{00A7}" == "\n\U{00A7}";
    NewlineIsInert();
    var p := WholeText(o, e);
    assert BumpEntry(o, "", today) == Some(p);
    assert [""][0 := p] == [p];
    JoinHolds(o, [p], [e]);
  }

  lemma {:induction false} JoinLast(ps: seq<string>, q: string)
    requires ps != []
    ensures Join(ps) + (DELIMITER + q) == Join(ps + [q])
    decreases |ps|
  {
    if |ps| == 1 {
      assert (ps + [q])[1..] == [q];
      assert Join([q]) == q;
    } else {
      JoinLast(ps[1..], q);
      assert (ps + [q])[1..] == ps[1..] + [q];
    }
  }

  lemma {:induction false} RstripSuffix(s: string, t: string)
    requires Rstrip(t) != ""
    ensures Rstrip(s + t) == s + Rstrip(t)
    decreases |t|
  {
    var u := s + t;
    assert t != "";
    assert u[|u| - 1] == t[|t| - 1];
    if IsSpace(t[|t| - 1]) {
      assert u[..|u| - 1] == s + t[..|t| - 1];
      RstripSuffix(s, t[..|t| - 1]);
    }
  }

  /** Trimming the end of the file trims the end of its last entry. */
  lemma {:induction false} RstripJoin(ps: seq<string>, q: string)
    requires Rstrip(q) != ""
    ensures Rstrip(Join(ps + [q])) == Join(ps + [Rstrip(q)]) != ""
    decreases |ps|
  {
    if ps == [] {
      assert ps + [q] == [q] && ps + [Rstrip(q)] == [Rstrip(q)];
    } else {
      RstripJoin(ps[1..], q);
      JoinFirst(ps, q);
      JoinFirst(ps, Rstrip(q));
      RstripSuffix(ps[0] + DELIMITER, Join(ps[1..] + [q]));
    }
  }

  lemma JoinFirst(ps: seq<string>, q: string)
    requires ps != []
    ensures Join(ps + [q]) == (ps[0] + DELIMITER) + Join(ps[1..] + [q])
  {
    var rest := ps[1..] + [q];
    assert ps + [q] == [ps[0]] + rest;
  }

  lemma StripNonBlank(s: string)
    requires Rstrip(s) != ""
    ensures Strip(s) != ""
  {
    var l := Lstrip(s);
    if l == "" {
      AllSpaceRstrip(s);
    } else {
      assert !IsSpace(l[0]);
      NonBlankRstrip(l);
    }
  }

  lemma {:induction false} AllSpaceRstrip(s: string)
    requires Lstrip(s) == ""
    ensures Rstrip(s) == ""
    decreases |s|
  {
    if s != "" {
      AllSpaceChars(s);
    }
  }

  lemma {:induction false} AllSpaceChars(s: string)
    requires Lstrip(s) == ""
    ensures forall i :: 0 <= i < |s| ==> IsSpace(s[i])
    decreases |s|
  {
    if s != "" {
      var t := s[1..];
      assert IsSpace(s[0]) && Lstrip(t) == "";
      AllSpaceChars(t);
      assert forall i :: 1 <= i < |s| ==> s[i] == t[i - 1];
    }
  }

  lemma {:induction false} NonBlankRstrip(l: string)
    requires l != "" && !IsSpace(l[0])
    ensures Rstrip(l) != ""
    decreases |l|
  {
    if |l| > 1 && IsSpace(l[|l| - 1]) { NonBlankRstrip(l[..|l| - 1]); }
  }

  lemma {:induction false} LstripPrefix(s: string, t: string)
    requires Lstrip(s) != ""
    ensures Lstrip(s + t) == Lstrip(s) + t
    decreases |s|
  {
    assert (s + t)[0] == s[0];
    if IsSpace(s[0]) {
      assert (s + t)[1..] == s[1..] + t;
      LstripPrefix(s[1..], t);
    }
  }

  lemma {:induction false} JoinThen(ps: seq<string>, r: string, x: string)
    ensures Join(ps + [r]) + x == Join(ps + [r + x])
    decreases |ps|
  {
    if ps == [] {
      assert ps + [r] == [r] && ps + [r + x] == [r + x];
    } else {
      JoinThen(ps[1..], r, x);
      JoinFirst(ps, r);
      JoinFirst(ps, r + x);
    }
  }

  // ---------- appending ----------

  predicate Cores(o: Oracles, ps: seq<string>, es: seq<Entry>) {
    |ps| == |es| && forall i :: 0 <= i < |es| ==> Core(o, ps[i], es[i])
  }

  lemma ShapesSplit(o: Oracles, ps: seq<string>, es: seq<Entry>)
    requires es != [] && ShapesAll(o, ps, es)
    ensures Cores(o, ps[..|ps| - 1], es[..|es| - 1]) && Shape(o, ps[|ps| - 1], es[|es| - 1])
    ensures ps[..|ps| - 1] + [ps[|ps| - 1]] == ps && es[..|es| - 1] + [es[|es| - 1]] == es
  {
  }

  /** Trimming the end of the file leaves texts of the same entries. */
  lemma FileTrims(o: Oracles, ps: seq<string>, es: seq<Entry>) returns (qs: seq<string>)
    requires es != [] && ShapesAll(o, ps, es) && AllSound(es)
    ensures Join(qs) == Rstrip(Join(ps)) && Cores(o, qs, es)
    ensures Strip(Join(ps)) != ""
  {
    var n := |ps| - 1;
    ShapesSplit(o, ps, es);
    ShapeTrims(o, ps[n], es[n]);
    RstripJoin(ps[..n], ps[n]);
    qs := ps[..n] + [Rstrip(ps[n])];
    StripNonBlank(Join(ps));
  }

  /** Appending a block adds one entry to the list. */
  lemma AppendHolds(o: Oracles, text: string, es: seq<Entry>, block: string, e: Entry)
    requires Lawful(o) && AllSound(es) && Holds(o, text, es) && Sound(e) && Shape(o, block, e)
    ensures Holds(o, Appended(text, block), es + [e]) && AllSound(es + [e])
  {
    if es == [] {
      assert [] + [e] == [e];
      JoinHolds(o, [block], [e]);
    } else {
      JoinSplit(text);
      var ps := SplitEntries(text);
      var qs := FileTrims(o, ps, es);
      JoinLast(qs, block);
      SoundSnoc(es, e);
      JoinHolds(o, qs + [block], es + [e]);
      AppendedIs(text, block, qs);
    }
  }

  /** The parts of the file then: those there were, up to the space at the end, and the block. */
  lemma AppendedParts(o: Oracles, text: string, es: seq<Entry>, block: string, e: Entry) returns (qs: seq<string>)
    requires Lawful(o) && AllSound(es) && es != [] && Holds(o, text, es) && Sound(e) && Shape(o, block, e)
    ensures SplitEntries(Appended(text, block)) == qs + [block] && Cores(o, qs, es)
  {
    JoinSplit(text);
    qs := FileTrims(o, SplitEntries(text), es);
    JoinLast(qs, block);
    SoundSnoc(es, e);
    CoresAndOne(o, qs, es, block, e);
    JoinHolds(o, qs + [block], es + [e]);
    AppendedIs(text, block, qs);
  }

  lemma AppendedIs(text: string, block: string, qs: seq<string>)
    requires Strip(text) != "" && Join(qs) == Rstrip(text) && Join(qs) + (DELIMITER + block) == Join(qs + [block])
    ensures Appended(text, block) == Join(qs + [block])
  {
  }

  lemma SoundSnoc(es: seq<Entry>, e: Entry)
    requires AllSound(es) && Sound(e)
    ensures AllSound(es + [e])
  {
  }

  // ---------- pruning ----------

  /** Low confidence, never reinforced, and old enough. */
  predicate Stale(e: Entry, today: int, maxAge: int) {
    e.tag.Tagged? && e.tag.conf == "low" && e.tag.reinforced == 0 && today - e.tag.captured >= maxAge
  }

  function KeepEntries(es: seq<Entry>, today: int, maxAge: int): seq<Entry> {
    if es == [] then []
    else
      var init := KeepEntries(es[..|es| - 1], today, maxAge);
      if Stale(es[|es| - 1], today, maxAge) then init else init + [es[|es| - 1]]
  }

  /** The first entry stripped of the space before it. */
  function TrimFirst(es: seq<Entry>): (r: seq<Entry>)
    ensures |r| == |es|
  {
    if es == [] then [] else es[0 := Trim(es[0])]
  }

  /** `prune_low_confidence`, on entries. */
  function PruneEntries(es: seq<Entry>, today: int, maxAge: int): seq<Entry> {
    if maxAge <= 0 || |KeepEntries(es, today, maxAge)| == |es| then es
    else TrimFirst(KeepEntries(es, today, maxAge))
  }

  lemma PruneReads(o: Oracles, p: string, e: Entry, today: int, maxAge: int)
    requires Lawful(o) && Sound(e) && Shape(o, p, e)
    ensures ShouldPrune(o, p, today, maxAge) == Some(Stale(e, today, maxAge))
  {
    ShapeReads(o, p, e);
    if e.tag.Tagged? {
      assert DateSurvives(o, e.tag.captured);
      PruneTagged(o, p, e, today, maxAge);
    }
  }

  lemma PruneTagged(o: Oracles, p: string, e: Entry, today: int, maxAge: int)
    requires e.tag.Tagged? && o.parseDate(o.isoDate(e.tag.captured)) == Some(e.tag.captured)
    requires HasFields(ParseMeta(p), e.tag.conf, o.isoDate(e.tag.captured), IntText(e.tag.reinforced))
    ensures ShouldPrune(o, p, today, maxAge) == Some(Stale(e, today, maxAge))
  {
    ParseIntRoundTrip(e.tag.reinforced);
  }

  lemma {:induction false} KeepCores(o: Oracles, ps: seq<string>, es: seq<Entry>, today: int, maxAge: int)
    requires Lawful(o) && Cores(o, ps, es) && AllSound(es)
    ensures KeepParts(o, ps, today, maxAge).Some?
    ensures Cores(o, KeepParts(o, ps, today, maxAge).value, KeepEntries(es, today, maxAge))
    decreases |ps|
  {
    if ps != [] {
      var n := |ps| - 1;
      KeepCores(o, ps[..n], es[..n], today, maxAge);
      PruneReads(o, ps[n], es[n], today, maxAge);
    }
  }

  lemma KeepHolds(o: Oracles, ps: seq<string>, es: seq<Entry>, today: int, maxAge: int)
    requires Lawful(o) && es != [] && ShapesAll(o, ps, es) && AllSound(es)
    ensures KeepParts(o, ps, today, maxAge).Some?
    ensures ShapesAll(o, KeepParts(o, ps, today, maxAge).value, KeepEntries(es, today, maxAge))
  {
    var n := |ps| - 1;
    ShapesSplit(o, ps, es);
    KeepCores(o, ps[..n], es[..n], today, maxAge);
    PruneReads(o, ps[n], es[n], today, maxAge);
    CoresAndOne(o, KeepParts(o, ps[..n], today, maxAge).value, KeepEntries(es[..n], today, maxAge), ps[n], es[n]);
  }

  lemma CoresAndOne(o: Oracles, ps: seq<string>, es: seq<Entry>, p: string, e: Entry)
    requires Cores(o, ps, es) && Shape(o, p, e)
    ensures ShapesAll(o, ps, es) && ShapesAll(o, ps + [p], es + [e])
  {
  }

  lemma {:induction false} KeepSound(es: seq<Entry>, today: int, maxAge: int)
    requires AllSound(es)
    ensures AllSound(KeepEntries(es, today, maxAge))
    ensures |KeepEntries(es, today, maxAge)| <= |es|
    ensures |KeepEntries(es, today, maxAge)| == |es| ==> KeepEntries(es, today, maxAge) == es
    decreases |es|
  {
    if es != [] {
      var n := |es| - 1;
      KeepSound(es[..n], today, maxAge);
      LastApart(es);
      if !Stale(es[n], today, maxAge) { SoundSnoc(KeepEntries(es[..n], today, maxAge), es[n]); }
    }
  }

  /** A text with a space in front is as whole as without it. */
  lemma {:induction false} WholeTail(t: string)
    requires t != "" && IsSpace(t[0]) && Whole(t)
    ensures Whole(t[1..])
    decreases |t|
  {
    SolidTail(t);
    ShownClosed(t[1..]);
    if !Closed(t[1..]) {
      NextTail(t);
      if Next(t) != Next(t[1..]) { WholeTail(Next(t)); }
    }
  }

  lemma NextTail(t: string)
    requires t != "" && IsSpace(t[0])
    ensures Next(t) == Next(t[1..]) || (Next(t) != "" && Next(t)[0] == t[0] && Next(t)[1..] == Next(t[1..]))
  {
    ShownTail(t);
    if Shown(t) != Shown(t[1..]) { RstripNewlinesCons(t[0], Shown(t[1..])); }
  }

  lemma {:induction false} RstripNewlinesCons(c: char, s: string)
    ensures var r := RstripNewlines([c] + s);
            r == RstripNewlines(s) || (r != "" && r[0] == c && r[1..] == RstripNewlines(s))
    decreases |s|
  {
    var t := [c] + s;
    if s == "" {
      assert t[..0] == "";
    } else if s[|s| - 1] == '\n' {
      assert t[..|t| - 1] == [c] + s[..|s| - 1];
      RstripNewlinesCons(c, s[..|s| - 1]);
    } else {
      assert t[1..] == s;
    }
  }

  lemma SolidTail(t: string)
    requires t != "" && Solid(t)
    ensures Solid(t[1..])
  {
    assert (t + "\n\U{00A7}")[1..] == t[1..] + "\n\U{00A7}";
  }

  /** A leading space is shown, or goes with the comment after it. */
  lemma ShownTail(t: string)
    requires t != "" && IsSpace(t[0])
    ensures Shown(t) == Shown(t[1..]) || Shown(t) == [t[0]] + Shown(t[1..])
    ensures MatchLength(t + "\n-->") > 0 ==> Shown(t) == Shown(t[1..])
  {
    var m := MatchLength(t + "\n-->");
    if m > 0 {
      TailExtends(t, "\n-->");
      assert (t + "\n-->")[0] == t[0];
      ShownTailMatch(t, t[1..], m);
    } else {
      ShownHere(t);
    }
  }

  lemma ShownTailMatch(t: string, u: string, m: nat)
    requires t != "" && t[1..] == u && 1 < m == MatchLength(t + "\n-->") && MatchLength(u + "\n-->") == m - 1
    ensures Shown(t) == Shown(u)
  {
    if m <= |t| {
      assert t[m..] == u[m - 1..];
    }
  }

  /** Stripping the file and ending it with a line break keeps its entries, but for space before the first. */
  lemma TrimHolds(o: Oracles, ps: seq<string>, es: seq<Entry>)
    requires Lawful(o) && es != [] && ShapesAll(o, ps, es) && AllSound(es)
    ensures Strip(Join(ps)) != "" && Holds(o, Strip(Join(ps)) + "\n", TrimFirst(es)) && AllSound(TrimFirst(es))
  {
    var l := FileLtrims(o, ps, es);
    var _ := FileTrims(o, ps, es);
    TrimIsSound(es);
    var qs := FileTrims(o, l, TrimFirst(es));
    EndWithNewline(o, qs, TrimFirst(es));
  }

  lemma TrimIsSound(es: seq<Entry>)
    requires es != [] && AllSound(es)
    ensures AllSound(TrimFirst(es))
  {
    WholeLstrip(es[0].text);
    LstripIsSuffix(es[0].text);
  }

  lemma {:induction false} WholeLstrip(t: string)
    requires Whole(t)
    ensures Whole(Lstrip(t))
    decreases |t|
  {
    if t != "" && IsSpace(t[0]) {
      WholeTail(t);
      WholeLstrip(t[1..]);
    }
  }

  lemma FileLtrims(o: Oracles, ps: seq<string>, es: seq<Entry>) returns (l: seq<string>)
    requires es != [] && ShapesAll(o, ps, es) && AllSound(es)
    ensures ShapesAll(o, l, TrimFirst(es)) && Join(l) == Lstrip(Join(ps))
  {
    ShapeTrims(o, ps[0], es[0]);
    l := [Lstrip(ps[0])] + ps[1..];
    ShapesHead(o, ps, es, Lstrip(ps[0]));
    LtrimFirst(ps);
  }

  lemma LtrimFirst(ps: seq<string>)
    requires ps != [] && Lstrip(ps[0]) != ""
    ensures Join([Lstrip(ps[0])] + ps[1..]) == Lstrip(Join(ps))
  {
    var rest := ps[1..];
    if rest != [] { LstripPrefix(ps[0], DELIMITER + Join(rest)); }
  }

  lemma ShapesHead(o: Oracles, ps: seq<string>, es: seq<Entry>, p: string)
    requires es != [] && ShapesAll(o, ps, es) && Shape(o, p, Trim(es[0]))
    requires Core(o, ps[0], es[0]) ==> Core(o, p, Trim(es[0]))
    ensures ShapesAll(o, [p] + ps[1..], TrimFirst(es))
  {
    var qs, fs := [p] + ps[1..], TrimFirst(es);
    forall i | 0 <= i < |fs| ensures Shape(o, qs[i], fs[i]) && (i < |fs| - 1 ==> Core(o, qs[i], fs[i])) {
      if i > 0 {
        TailPlaces(ps, p, es, i);
        ShapesFrom(o, ps, es, i, qs[i], fs[i]);
      }
    }
  }

  /** Behind the first place nothing has changed. */
  lemma TailPlaces(ps: seq<string>, p: string, es: seq<Entry>, i: nat)
    requires 0 < i < |es| == |ps|
    ensures ([p] + ps[1..])[i] == ps[i] && TrimFirst(es)[i] == es[i]
  {
  }

  lemma ShapesFrom(o: Oracles, ps: seq<string>, es: seq<Entry>, i: nat, q: string, e: Entry)
    requires |ps| == |es| && ShapesAll(o, ps, es) && i < |es| && q == ps[i] && e == es[i]
    ensures Shape(o, q, e) && (i < |es| - 1 ==> Core(o, q, e))
  {
  }

  lemma EndWithNewline(o: Oracles, qs: seq<string>, es: seq<Entry>)
    requires Lawful(o) && es != [] && Cores(o, qs, es) && AllSound(es)
    ensures Holds(o, Join(qs) + "\n", es)
  {
    var n := |qs| - 1;
    LastApart(qs);
    LastApart(es);
    var rs := NewlineLast(o, qs[..n], qs[n], es[..n], es[n]);
    JoinHolds(o, rs, es);
  }

  lemma LastApart<T>(s: seq<T>)
    requires s != []
    ensures s == s[..|s| - 1] + [s[|s| - 1]]
  {
  }

  lemma NewlineLast(o: Oracles, qs: seq<string>, q: string, es: seq<Entry>, e: Entry) returns (rs: seq<string>)
    requires Cores(o, qs, es) && Core(o, q, e)
    ensures ShapesAll(o, rs, es + [e]) && Join(rs) == Join(qs + [q]) + "\n"
  {
    rs := qs + [q + "\n"];
    JoinThen(qs, q, "\n");
  }

  /** A prune drops exactly the stale entries; when it drops any, the first one left loses the space before it. */
  lemma PruneHolds(o: Oracles, text: string, es: seq<Entry>, today: int, maxAge: int)
    requires Lawful(o) && AllSound(es) && Holds(o, text, es)
    ensures Holds(o, PruneText(o, text, today, maxAge), PruneEntries(es, today, maxAge))
    ensures AllSound(PruneEntries(es, today, maxAge))
  {
    KeepSound(es, today, maxAge);
    if es != [] && maxAge > 0 {
      var ps := SplitEntries(text);
      JoinSplit(text);
      var _ := FileTrims(o, ps, es);
      KeepHolds(o, ps, es, today, maxAge);
      var kept := KeepParts(o, ps, today, maxAge).value;
      var left := KeepEntries(es, today, maxAge);
      if left == [] {
        assert Join(kept) == "";
      } else {
        TrimHolds(o, kept, left);
      }
    }
  }

  // ---------- adding ----------

  /** An add whose content normalises to nothing reinforces the first entry, whatever it is. */
  function AddBlank(es: seq<Entry>, today: int): seq<Entry> {
    if es == [] then [Entry("", Tagged(DEFAULT_CONFIDENCE, today, 1))] else es[0 := Bumped(es[0], today)]
  }

  function AddFound(es: seq<Entry>, dup: Option<nat>, cleaned: string, conf: string, today: int): seq<Entry> {
    match dup
    case Some(i) => if i < |es| then es[i := Bumped(es[i], today)] else es
    case None => es + [Entry(cleaned, Tagged(conf, today, 0))]
  }

  /** What deduplication compares of a content. */
  function Needle(o: Oracles, cleaned: string): Profile {
    ProfileOf(o, StripMeta(cleaned))
  }

  /** `add`, on entries. */
  function AddEntries(o: Oracles, es: seq<Entry>, cleaned: string, conf: string, today: int): seq<Entry> {
    var needle := Needle(o, cleaned);
    if needle.norm == "" then AddBlank(es, today)
    else AddFound(es, FirstSimilar(needle, EntryProfiles(o, es)), cleaned, conf, today)
  }

  lemma {:induction false} FirstSimilarInRange(needle: Profile, ps: seq<Profile>)
    ensures FirstSimilar(needle, ps).Some? ==> FirstSimilar(needle, ps).value < |ps|
    ensures FirstSimilar(needle, ps).None? ==> forall i :: 0 <= i < |ps| ==> !Similar(needle, ps[i], DEDUP_THRESHOLD)
    decreases |ps|
  {
    if ps != [] { FirstSimilarInRange(needle, ps[1..]); }
  }

  /** What the dedup search finds in the text is what it would find in the list. */
  lemma DuplicateFound(o: Oracles, text: string, es: seq<Entry>, cleaned: string)
    requires Lawful(o) && AllSound(es) && Holds(o, text, es)
    requires Needle(o, cleaned).norm != ""
    ensures DuplicateIndex(o, text, cleaned) == FirstSimilar(Needle(o, cleaned), EntryProfiles(o, es))
  {
    if es == [] {
      EmptyHasNoDuplicate(o, Needle(o, cleaned));
    } else {
      HeldProfiles(o, text, es);
    }
  }

  lemma EmptyHasNoDuplicate(o: Oracles, needle: Profile)
    requires Lawful(o)
    ensures FirstSimilar(needle, Profiles(o, SplitEntries(""))) == None == FirstSimilar(needle, [])
  {
    NewlineIsInert();
    var ps := Profiles(o, SplitEntries(""));
    assert Strip("") == "" && RstripPunctuation("") == "";
    assert ps[0].norm == "";
    assert ps[1..] == [];
  }

  /** A content that keeps to one piece, or is never stored because nothing of it can be compared. */
  predicate Carried(o: Oracles, cleaned: string) {
    Needle(o, cleaned).norm == "" || Whole(cleaned)
  }

  /** An add is refused and changes nothing, or it does to the list what `AddEntries` says. */
  lemma AddHolds(o: Oracles, limit: nat, text: string, es: seq<Entry>, content: string, conf: string, today: int)
    requires Lawful(o) && AllSound(es) && Holds(o, text, es) && Carried(o, Clean(content))
    ensures AddOutcome(o, AddText(o, limit, text, content, conf, today), text, AddEntries(o, es, Clean(content), conf, today))
  {
    var cleaned := Clean(content);
    CleanedIsSolid(content);
    if cleaned != "" && IsConfidence(conf) {
      AddChooses(o, text, es, cleaned, conf, today);
      ChosenOutcome(o, limit, text, DuplicateIndex(o, text, cleaned), NewBlock(o, cleaned, conf, today), today,
                    AddEntries(o, es, cleaned, conf, today));
    }
  }

  ghost predicate AddOutcome(o: Oracles, r: (string, AddResult), text: string, es: seq<Entry>) {
    if r.1 == Refused then r.0 == text else Holds(o, r.0, es) && AllSound(es)
  }

  lemma ChosenOutcome(o: Oracles, limit: nat, text: string, dup: Option<nat>, block: string, today: int, es: seq<Entry>)
    requires Chosen(o, text, dup, block, today, es)
    ensures AddOutcome(o, AddChosen(o, limit, text, dup, block, today), text, es)
  {
  }

  /** Whichever way the dedup search sends the add, the file then holds `AddEntries`. */
  lemma AddChooses(o: Oracles, text: string, es: seq<Entry>, cleaned: string, conf: string, today: int)
    requires Lawful(o) && AllSound(es) && Holds(o, text, es)
    requires Trimmed(cleaned) && Carried(o, cleaned) && IsConfidence(conf)
    ensures Chosen(o, text, DuplicateIndex(o, text, cleaned), NewBlock(o, cleaned, conf, today), today,
                   AddEntries(o, es, cleaned, conf, today))
  {
    if Needle(o, cleaned).norm == "" {
      AddNothing(o, text, es, today);
    } else {
      DuplicateFound(o, text, es, cleaned);
      AddSomething(o, text, es, cleaned, conf, today, Needle(o, cleaned), EntryProfiles(o, es));
    }
  }

  ghost predicate Chosen(o: Oracles, text: string, dup: Option<nat>, block: string, today: int, es: seq<Entry>) {
    match dup
    case Some(i) => Reinforces(o, text, i, today, es)
    case None => Appends(o, text, block, es)
  }

  /** The two ways an add can go, and what each needs of the list afterwards. */
  ghost predicate Reinforces(o: Oracles, text: string, i: nat, today: int, es: seq<Entry>) {
    ReinforceAt(o, text, i, today).Some? && Holds(o, ReinforceAt(o, text, i, today).value, es) && AllSound(es)
  }

  ghost predicate Appends(o: Oracles, text: string, block: string, es: seq<Entry>) {
    Holds(o, Appended(text, block), es) && AllSound(es)
  }

  lemma AddSomething(o: Oracles, text: string, es: seq<Entry>, cleaned: string, conf: string, today: int,
                     needle: Profile, ps: seq<Profile>)
    requires Lawful(o) && AllSound(es) && Holds(o, text, es) && |ps| == |es|
    requires Trimmed(cleaned) && Whole(cleaned) && IsConfidence(conf)
    ensures Chosen(o, text, FirstSimilar(needle, ps), NewBlock(o, cleaned, conf, today), today,
                   AddFound(es, FirstSimilar(needle, ps), cleaned, conf, today))
  {
    FirstSimilarInRange(needle, ps);
    NormalIsValue();
    match FirstSimilar(needle, ps)
    case Some(i) => ReinforceHolds(o, text, es, i, today);
    case None =>
      AppendHolds(o, text, es, NewBlock(o, cleaned, conf, today), Entry(cleaned, Tagged(conf, today, 0)));
  }

  lemma AddNothing(o: Oracles, text: string, es: seq<Entry>, today: int)
    requires Lawful(o) && AllSound(es) && Holds(o, text, es)
    ensures Reinforces(o, text, 0, today, AddBlank(es, today))
  {
    if es == [] {
      ReinforceEmptyFile(o, today);
    } else {
      ReinforceHolds(o, text, es, 0, today);
    }
  }
}
