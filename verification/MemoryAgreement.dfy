/**
 * Live deduplication and the audit over runs of adds alone: the exact condition on the contents. Some
 * contents come apart when they are reinforced; as long as nothing is pruned they do no harm when
 * none of the pieces shows anything that could be compared.
 */
module MemoryAgreement {
  import opened Common
  import opened Text
  import opened EntryFormat
  import opened Similarity
  import opened MemoryStore
  import opened MemoryEntries
  import opened MemoryRuns
  import opened MemoryCounters
  import opened MemorySize
  import opened MemoryGaps
  import opened MemoryEscapes
  import MemoryAudit

  // ---------- what the comment says does not matter ----------

  /** Rewritten with whatever comment, the body shows the same pieces. */
  lemma {:induction false} SamePieces(pre: string, b: string, c: string, k: int, d: string, l: int, p: string) returns (q: string)
    requires Written(c, k) && Written(d, l) && p in Glue(pre, SplitEntries(b + c))
    ensures q in Glue(pre, SplitEntries(b + d)) && StripMeta(q) == StripMeta(p)
    decreases |b|
  {
    WrittenSolid(c, k);
    WrittenSolid(d, l);
    if b == "" {
      WrittenAlone(pre, b, c, k);
      WrittenAlone(pre, b, d, l);
      q := pre + d;
      assert p == pre + c;
    } else if DELIMITER <= b {
      q := SameBehind(pre, b, c, k, d, l, p);
    } else if DELIMITER <= b + c {
      Straddles(b, c);
      StraddleSplits(pre, b, c, k);
      StraddleSplits(pre, b, d, l);
      WrittenShows("", c, k);
      WrittenShows("", d, l);
      q := if p == pre then pre else d[1..];
    } else {
      SameHeads(b, c, d);
      GlueTwo(pre, b, c);
      GlueTwo(pre, b, d);
      q := SamePieces(pre + [b[0]], b[1..], c, k, d, l, p);
    }
  }

  lemma WrittenAlone(pre: string, b: string, c: string, k: int)
    requires Written(c, k) && b == ""
    ensures Glue(pre, SplitEntries(b + c)) == [pre + c] && StripMeta(pre + c) == Shown(pre)
  {
    WrittenShows(pre, c, k);
    WrittenGlued(pre, c, k);
    assert b + c == c;
  }

  lemma WrittenGlued(pre: string, c: string, k: int)
    requires Written(c, k)
    ensures Glue(pre, SplitEntries(c)) == [pre + c]
  {
    WrittenSolid(c, k);
    assert c + After(None) == c;
    SolidAfter(pre, c, None);
    assert [pre + c] + [] == [pre + c];
  }

  lemma SameHeads(b: string, c: string, d: string)
    requires b != "" && c != "" && d != "" && c[0] == d[0] == '\n'
    ensures DELIMITER <= b + d ==> DELIMITER <= b + c
  {
    if |b| >= 2 {
      assert (b + d)[..3] == (b + c)[..3];
    } else {
      assert (b + d)[1] == '\n' && DELIMITER[1] == '\U{00A7}';
    }
  }

  lemma SameBehind(pre: string, b: string, c: string, k: int, d: string, l: int, p: string) returns (q: string)
    requires Written(c, k) && Written(d, l) && DELIMITER <= b && p in Glue(pre, SplitEntries(b + c))
    ensures q in Glue(pre, SplitEntries(b + d)) && StripMeta(q) == StripMeta(p)
    decreases |b|, 0
  {
    var t := b[3..];
    DelimiterBehind(pre, b, t, c);
    DelimiterBehind(pre, b, t, d);
    if p == pre {
      q := pre;
    } else {
      GlueNothing(SplitEntries(t + c));
      q := SamePieces("", t, c, k, d, l, p);
      GlueNothing(SplitEntries(t + d));
    }
  }

  /** No piece of the rewritten body shows anything that can be compared. */
  predicate Scatters(b: string) {
    AllBlank(SplitEntries(b + BuildMeta("normal", IntText(DAY), 1)))
  }

  predicate AllBlank(ps: seq<string>) {
    forall p :: p in ps ==> Blank(StripMeta(p))
  }

  lemma ScattersAlways(b: string, c: string, k: int)
    requires Scatters(b) && Written(c, k)
    ensures AllBlank(SplitEntries(b + c))
  {
    var d := BuildMeta("normal", IntText(DAY), 1);
    NormalIsValue();
    IntTextIsValue(DAY);
    GlueNothing(SplitEntries(b + c));
    GlueNothing(SplitEntries(b + d));
    forall p | p in SplitEntries(b + c) ensures Blank(StripMeta(p)) {
      var q := SamePieces("", b, c, k, d, 1, p);
    }
  }

  // ---------- entries that stay apart however they are reinforced ----------

  /** Written back, the body stays what it is or comes to nothing. */
  predicate Fine(b: string) { (Solid(b) && Closed(b)) || Scatters(b) }

  /** What a reinforcement writes back of the entry text. */
  function Body(p: string): string { RstripNewlines(StripMeta(p)) }

  predicate FineEntry(p: string) { Solid(p) && Fine(Body(p)) }

  predicate AllFine(ps: seq<string>) {
    forall i :: 0 <= i < |ps| ==> FineEntry(ps[i])
  }

  lemma BlankIsFine(s: string)
    requires Blank(s)
    ensures Fine(RstripNewlines(s))
  {
    StripFinalBreaks(s);
    BlankIsPlain(RstripNewlines(s));
  }

  lemma {:induction false} EndSolid(s: string)
    requires DelimFree(s) && s != "" && s[|s| - 1] != '\n' && s[|s| - 1] != '\U{00A7}'
    ensures Solid(s)
    decreases |s|
  {
    var mark := s + "\n\U{00A7}";
    assert mark[1..] == s[1..] + "\n\U{00A7}";
    if |s| == 1 {
      EmptySolid();
      assert "" + "\n\U{00A7}" == "\n\U{00A7}" && s[1..] == "";
      assert mark[0] == s[0];
    } else {
      assert s[1..][|s| - 2] == s[|s| - 1];
      EndSolid(s[1..]);
      assert mark[0] == s[0] && mark[1] == s[1] && (|s| > 2 ==> mark[2] == s[2]);
      if |s| > 2 { assert mark[..3] == s[..3]; }
    }
  }

  /** The last piece ends as the text does. */
  lemma {:induction false} LastPiece(ps: seq<string>, s: string)
    requires ps != [] && Join(ps) == s != "" && s[|s| - 1] != '\n'
    ensures var p := ps[|ps| - 1];
            p != "" && p[|p| - 1] == s[|s| - 1]
    decreases |ps|
  {
    if |ps| > 1 {
      var rest := Join(ps[1..]);
      EndsBehind(ps[0], rest, s);
      LastPiece(ps[1..], rest);
    }
  }

  lemma EndsBehind(p: string, rest: string, s: string)
    requires s == p + (DELIMITER + rest)
    ensures s[|s| - 1] == if rest == "" then '\n' else rest[|rest| - 1]
  {
  }

  /** The pieces of a rewritten entry are whole entries, and the last one ends in the comment. */
  lemma PiecesSolid(b: string, c: string, k: int, ps: seq<string>)
    requires Written(c, k) && ps == SplitEntries(b + c)
    ensures AllSolid(ps) && EndsClosed(ps[|ps| - 1])
  {
    ClosesWritten(b, c, k);
    ClosedPieces(b + c, ps);
  }

  lemma ClosedPieces(s: string, ps: seq<string>)
    requires s != "" && s[|s| - 1] == '>' && ps == SplitEntries(s)
    ensures AllSolid(ps) && EndsClosed(ps[|ps| - 1])
  {
    JoinSplit(s);
    LastPiece(ps, s);
    SplitIsParts(s);
    LastSolid(ps);
  }

  lemma LastSolid(ps: seq<string>)
    requires Parts(ps) && ps[|ps| - 1] != "" && ps[|ps| - 1][|ps[|ps| - 1]| - 1] == '>'
    ensures AllSolid(ps) && EndsClosed(ps[|ps| - 1])
  {
    EndSolid(ps[|ps| - 1]);
  }

  /** Ends in a comment, up to a line break. */
  predicate EndsClosed(s: string) {
    var n := |s|;
    (n > 0 && s[n - 1] == '>') || (n > 1 && s[n - 1] == '\n' && s[n - 2] == '>')
  }

  lemma ClosesWritten(b: string, c: string, k: int)
    requires Written(c, k)
    ensures b + c != "" && (b + c)[|b + c| - 1] == '>'
  {
    var conf: string, captured: string :| IsValue(conf) && IsValue(captured) && c == BuildMeta(conf, captured, k);
    CommentEnds(BuiltKv(conf, captured, k));
  }

  lemma WrittenEndsSolid(b: string, c: string, k: int)
    requires Written(c, k) && Solid(b)
    ensures SplitEntries(b + c) == [b + c]
  {
    var conf: string, captured: string :| IsValue(conf) && IsValue(captured) && c == BuildMeta(conf, captured, k);
    BuiltKvShape(conf, captured, k);
    CommentSolid(b, BuiltKv(conf, captured, k), "");
    assert c + "" == c;
    DelimFreePrefix(b + c, "\n\U{00A7}");
    SplitSingle(b + c);
  }

  /** A reinforcement leaves the entry showing what it showed, or pieces that show nothing. */
  predicate Replaces(o: Oracles, ps: seq<string>, was: Profile) {
    (|ps| == 1 && ProfileOf(o, StripMeta(ps[0])) == was) || AllBlank(ps)
  }

  lemma RewrittenFine(o: Oracles, p: string, c: string, k: int) returns (qs: seq<string>)
    requires Lawful(o) && Fine(Body(p)) && Written(c, k)
    ensures qs == SplitEntries(Body(p) + c) && AllFine(qs) && EndsClosed(qs[|qs| - 1])
    ensures Replaces(o, qs, ProfileOf(o, StripMeta(p)))
  {
    var b := Body(p);
    qs := SplitEntries(b + c);
    PiecesSolid(b, c, k, qs);
    if Scatters(b) {
      ScattersAlways(b, c, k);
      BlankAreFine(qs);
    } else {
      WrittenEndsSolid(b, c, k);
      SameAgain(o, p, c, k);
    }
  }

  /** A closed body shows the same again. */
  lemma SameAgain(o: Oracles, p: string, c: string, k: int)
    requires Lawful(o) && Solid(Body(p)) && Closed(Body(p)) && Written(c, k)
    ensures Body(Body(p) + c) == Body(p) && ProfileOf(o, StripMeta(Body(p) + c)) == ProfileOf(o, StripMeta(p))
  {
    var b := Body(p);
    BodyShows(o, p);
    ClosedAgain(b, c, k);
    assert RstripNewlines(b) == b;
  }

  lemma BodyShows(o: Oracles, p: string)
    requires Lawful(o)
    ensures ProfileOf(o, Body(p)) == ProfileOf(o, StripMeta(p))
  {
    StripFinalBreaks(StripMeta(p));
    ProfileIgnoresEnds(o, Body(p), StripMeta(p));
  }

  lemma ClosedAgain(b: string, c: string, k: int)
    requires Closed(b) && Written(c, k)
    ensures StripMeta(b + c) == b
  {
    WrittenShows(b, c, k);
    ShownClosed(b);
  }

  lemma BlankAreFine(ps: seq<string>)
    requires AllSolid(ps) && AllBlank(ps)
    ensures AllFine(ps)
  {
    forall i | 0 <= i < |ps| ensures FineEntry(ps[i]) {
      assert ps[i] in ps;
      BlankIsFine(StripMeta(ps[i]));
    }
  }

  // ---------- what replacing one entry by several does ----------

  lemma SplitsInPlace(ps: seq<string>, i: nat, b: string, c: string, k: int)
    requires AllSolid(ps) && i < |ps| && Written(c, k)
    ensures SplitEntries(Join(ps[i := b + c])) == ps[..i] + (SplitEntries(b + c) + ps[i + 1..])
  {
    var back := ps[i + 1..];
    Around(ps, i, ps[i], b + c);
    FrontSplits(ps[..i], [b + c] + back);
    if back == [] {
      assert [b + c] + back == [b + c] && Join([b + c]) == b + c;
      assert SplitEntries(b + c) + back == SplitEntries(b + c);
    } else {
      assert ([b + c] + back)[1..] == back;
      BehindComment(b, c, k, Join(back));
      SplitJoin(back);
    }
  }

  lemma ProfilesConcat(o: Oracles, a: seq<string>, b: seq<string>)
    ensures Profiles(o, a + b) == Profiles(o, a) + Profiles(o, b)
  {
    forall i: nat | i < |a + b| ensures Profiles(o, a + b)[i] == (Profiles(o, a) + Profiles(o, b))[i] {
      ProfileAt(o, a + b, i);
      if i < |a| { ProfileAt(o, a, i); } else { ProfileAt(o, b, i - |a|); }
    }
  }

  lemma ProfilesOfThree(o: Oracles, a: seq<string>, m: seq<string>, z: seq<string>)
    ensures Profiles(o, a + (m + z)) == Profiles(o, a) + (Profiles(o, m) + Profiles(o, z))
  {
    ProfilesConcat(o, m, z);
    ProfilesConcat(o, a, m + z);
  }

  predicate Silent(ps: seq<Profile>) { forall i :: 0 <= i < |ps| ==> ps[i].norm == "" }

  /** Profiles of nothing put where one profile was. */
  lemma SilentStaysApart(a: seq<Profile>, p: Profile, m: seq<Profile>, z: seq<Profile>)
    requires Apart(a + ([p] + z)) && Silent(m)
    ensures Apart(a + (m + z))
  {
    var was, now := a + ([p] + z), a + (m + z);
    forall i, j | 0 <= i < j < |now| ensures !Similar(now[i], now[j], DEDUP_THRESHOLD) {
      SilentMiddle(a, m, z, i);
      SilentMiddle(a, m, z, j);
      if now[i].norm != "" && now[j].norm != "" {
        var i', j' := Before(a, p, m, z, i), Before(a, p, m, z, j);
        assert was[i'] == now[i] && was[j'] == now[j] && i' < j';
      }
    }
  }

  /** Where a profile that says something stood before. */
  function Before(a: seq<Profile>, p: Profile, m: seq<Profile>, z: seq<Profile>, i: nat): (j: nat)
    requires i < |a + (m + z)| && !(|a| <= i < |a| + |m|)
    ensures j < |a + ([p] + z)| && (a + ([p] + z))[j] == (a + (m + z))[i]
    ensures if i < |a| then j == i else j == i - |m| + 1 && j > |a|
  {
    if i < |a| then i else i - |m| + 1
  }

  lemma SilentMiddle(a: seq<Profile>, m: seq<Profile>, z: seq<Profile>, i: nat)
    requires Silent(m) && i < |a + (m + z)|
    ensures |a| <= i < |a| + |m| ==> (a + (m + z))[i].norm == ""
  {
    if |a| <= i < |a| + |m| { assert (a + (m + z))[i] == m[i - |a|]; }
  }

  lemma BlankIsSilent(o: Oracles, ps: seq<string>)
    requires Lawful(o) && AllBlank(ps)
    ensures Silent(Profiles(o, ps))
  {
  }

  lemma ReplacedApart(o: Oracles, ps: seq<string>, i: nat, qs: seq<string>)
    requires Lawful(o) && i < |ps| && Apart(Profiles(o, ps)) && Replaces(o, qs, ProfileOf(o, StripMeta(ps[i])))
    ensures Apart(Profiles(o, ps[..i] + (qs + ps[i + 1..])))
  {
    var a, z := ps[..i], ps[i + 1..];
    var p := ProfileOf(o, StripMeta(ps[i]));
    ProfilesAround(o, ps, i);
    ProfilesOfThree(o, a, qs, z);
    if AllBlank(qs) {
      BlankIsSilent(o, qs);
      SilentStaysApart(Profiles(o, a), p, Profiles(o, qs), Profiles(o, z));
    } else {
      assert Profiles(o, qs) == [p];
    }
  }

  lemma ProfilesAround(o: Oracles, ps: seq<string>, i: nat)
    requires i < |ps|
    ensures Profiles(o, ps) == Profiles(o, ps[..i]) + ([ProfileOf(o, StripMeta(ps[i]))] + Profiles(o, ps[i + 1..]))
  {
    ProfilesOfThree(o, ps[..i], [ps[i]], ps[i + 1..]);
    assert ps == ps[..i] + ([ps[i]] + ps[i + 1..]);
    assert Profiles(o, [ps[i]]) == [ProfileOf(o, StripMeta(ps[i]))];
  }

  // ---------- the file ----------

  /** No two entries alike, each to stay as it is or to come to nothing. */
  ghost predicate Level(o: Oracles, ps: seq<string>) {
    ps != [] && EndsClosed(ps[|ps| - 1]) && AllFine(ps) && Apart(Profiles(o, ps))
  }

  ghost predicate FileLevel(o: Oracles, text: string) {
    text == "" || Level(o, SplitEntries(text))
  }

  lemma FineAmong(ps: seq<string>, i: nat, qs: seq<string>)
    requires i < |ps| && AllFine(ps) && AllFine(qs)
    ensures AllFine(ps[..i] + (qs + ps[i + 1..]))
  {
  }

  lemma FineIsSolid(ps: seq<string>)
    requires AllFine(ps)
    ensures AllSolid(ps)
  {
    forall i | 0 <= i < |ps| ensures Solid(ps[i]) {
      assert FineEntry(ps[i]);
    }
  }

  lemma LastAmong(ps: seq<string>, i: nat, qs: seq<string>)
    requires i < |ps| && qs != [] && EndsClosed(ps[|ps| - 1]) && EndsClosed(qs[|qs| - 1])
    ensures var new_ := ps[..i] + (qs + ps[i + 1..]);
            EndsClosed(new_[|new_| - 1])
  {
    if i == |ps| - 1 { assert qs + ps[i + 1..] == qs; }
  }

  lemma ReplacedLevel(o: Oracles, ps: seq<string>, i: nat, qs: seq<string>)
    requires Lawful(o) && Level(o, ps) && i < |ps| && AllFine(qs) && qs != [] && EndsClosed(qs[|qs| - 1])
    requires Replaces(o, qs, ProfileOf(o, StripMeta(ps[i])))
    ensures Level(o, ps[..i] + (qs + ps[i + 1..]))
  {
    FineAmong(ps, i, qs);
    LastAmong(ps, i, qs);
    ReplacedApart(o, ps, i, qs);
  }

  lemma RewrittenLevel(o: Oracles, ps: seq<string>, i: nat, c: string, k: int)
    requires Lawful(o) && Level(o, ps) && i < |ps| && Written(c, k)
    ensures Level(o, SplitEntries(Join(ps[i := Body(ps[i]) + c])))
  {
    assert FineEntry(ps[i]);
    var qs := RewrittenFine(o, ps[i], c, k);
    FineIsSolid(ps);
    SplitsInPlace(ps, i, Body(ps[i]), c, k);
    ReplacedLevel(o, ps, i, qs);
  }

  /** A reinforcement of any entry, or of the empty file, or one that raises. */
  lemma ReinforceLevel(o: Oracles, text: string, i: nat, today: int)
    requires Lawful(o) && FileLevel(o, text)
    ensures FileLevel(o, ReinforceText(o, text, i, today).0)
  {
    var ps := SplitEntries(text);
    if i < |ps| && BumpEntry(o, ps[i], today).Some? {
      var b, c, k := BumpWrites(o, ps[i], today);
      if text == "" {
        EmptyLevel(o, c, k);
      } else {
        RewrittenLevel(o, ps, i, c, k);
      }
    }
  }

  /** The empty file after a first add that normalises to nothing. */
  lemma EmptyLevel(o: Oracles, c: string, k: int)
    requires Lawful(o) && Written(c, k)
    ensures Body("") == "" && Level(o, SplitEntries(Join([""][0 := "" + c])))
  {
    NewlineIsInert();
    EmptyShowsNothing();
    BlankIsFine("");
    var qs := RewrittenFine(o, "", c, k);
    EmptySolid();
    WrittenEndsSolid("", c, k);
    OneReplaced("", "" + c);
  }

  // ---------- appending ----------

  /** The last entry without the line break at the end of the file. */
  lemma LastTrimmed(o: Oracles, q: string)
    requires Lawful(o) && FineEntry(q) && EndsClosed(q)
    ensures Rstrip(q) != "" && FineEntry(Rstrip(q))
    ensures ProfileOf(o, StripMeta(Rstrip(q))) == ProfileOf(o, StripMeta(q))
  {
    var r := RstripClosed(q);
    if q != r { BreakTrimmed(o, r); }
  }

  lemma RstripClosed(q: string) returns (r: string)
    requires EndsClosed(q)
    ensures Rstrip(q) == r != "" && r[|r| - 1] == '>' && (q == r || q == r + "\n")
  {
    if q[|q| - 1] == '\n' {
      r := q[..|q| - 1];
      assert q == r + "\n" && Rstrip(r) == r;
    } else {
      r := q;
    }
  }

  lemma BreakTrimmed(o: Oracles, r: string)
    requires Lawful(o) && FineEntry(r + "\n") && r != "" && r[|r| - 1] == '>'
    ensures FineEntry(r) && ProfileOf(o, StripMeta(r)) == ProfileOf(o, StripMeta(r + "\n"))
  {
    BreakSolid(r);
    BreakShows(o, r);
  }

  lemma BreakSolid(r: string)
    requires Solid(r + "\n") && r != "" && r[|r| - 1] == '>'
    ensures Solid(r)
  {
    assert (r + "\n") + "\n\U{00A7}" == r + "\n\n\U{00A7}";
    DelimFreePrefix(r, "\n\n\U{00A7}");
    EndSolid(r);
  }

  lemma BreakShows(o: Oracles, r: string)
    requires Lawful(o)
    ensures Body(r + "\n") == Body(r) && ProfileOf(o, StripMeta(r + "\n")) == ProfileOf(o, StripMeta(r))
  {
    StripBehind(r, "\n");
    FinalBreakGoes(StripMeta(r));
    StripFinalSpace(StripMeta(r), '\n');
    ProfileIgnoresEnds(o, StripMeta(r + "\n"), StripMeta(r));
  }

  /** The entries of the file without the space at its end. */
  lemma FileTrimmed(o: Oracles, text: string, ps: seq<string>) returns (qs: seq<string>)
    requires Lawful(o) && ps == SplitEntries(text) && Level(o, ps)
    ensures qs != [] && AllFine(qs) && Profiles(o, qs) == Profiles(o, ps)
    ensures Join(qs) == Rstrip(text) && Strip(text) != ""
  {
    var q := ps[|ps| - 1];
    assert FineEntry(q);
    LastTrimmed(o, q);
    TrimsLast(text, ps);
    qs := ps[..|ps| - 1] + [Rstrip(q)];
    LastChanged(o, ps, Rstrip(q));
  }

  lemma TrimsLast(text: string, ps: seq<string>)
    requires ps == SplitEntries(text) && Rstrip(ps[|ps| - 1]) != ""
    ensures Join(ps[..|ps| - 1] + [Rstrip(ps[|ps| - 1])]) == Rstrip(text) && Strip(text) != ""
  {
    LastApart(ps);
    JoinSplit(text);
    RstripJoin(ps[..|ps| - 1], ps[|ps| - 1]);
    StripNonBlank(text);
  }

  lemma LastChanged(o: Oracles, ps: seq<string>, q: string)
    requires ps != [] && AllFine(ps) && FineEntry(q)
    requires ProfileOf(o, StripMeta(q)) == ProfileOf(o, StripMeta(ps[|ps| - 1]))
    ensures AllFine(ps[..|ps| - 1] + [q]) && Profiles(o, ps[..|ps| - 1] + [q]) == Profiles(o, ps)
  {
    var n := |ps| - 1;
    LastApart(ps);
    FineFront(ps);
    FineSnoc(ps[..n], q);
    ProfilesSnocOf(o, ps[..n], ps[n]);
    ProfilesSnocOf(o, ps[..n], q);
  }

  lemma FineFront(ps: seq<string>)
    requires ps != [] && AllFine(ps)
    ensures AllFine(ps[..|ps| - 1])
  {
  }

  lemma AppendLevel(o: Oracles, text: string, block: string)
    requires Lawful(o) && FileLevel(o, text) && FineEntry(block) && EndsClosed(block)
    requires forall p :: p in Profiles(o, SplitEntries(text)) ==> !Similar(ProfileOf(o, StripMeta(block)), p, DEDUP_THRESHOLD)
    ensures FileLevel(o, Appended(text, block))
  {
    if text == "" {
      FirstLevel(o, block);
    } else {
      var qs := FileTrimmed(o, text, SplitEntries(text));
      JoinLast(qs, block);
      AppendedLevel(o, qs, block);
      AppendedIs(text, block, qs);
      FineIsSolid(qs + [block]);
      SplitJoin(qs + [block]);
    }
  }

  lemma FirstLevel(o: Oracles, block: string)
    requires FineEntry(block) && EndsClosed(block)
    ensures FileLevel(o, Appended("", block))
  {
    assert Strip("") == "";
    DelimFreePrefix(block, "\n\U{00A7}");
    SplitSingle(block);
  }

  lemma AppendedLevel(o: Oracles, qs: seq<string>, block: string)
    requires AllFine(qs) && Apart(Profiles(o, qs)) && FineEntry(block) && EndsClosed(block)
    requires forall p :: p in Profiles(o, qs) ==> !Similar(ProfileOf(o, StripMeta(block)), p, DEDUP_THRESHOLD)
    ensures Level(o, qs + [block])
  {
    ProfilesSnocOf(o, qs, block);
    AppendApart(Profiles(o, qs), ProfileOf(o, StripMeta(block)));
    FineSnoc(qs, block);
  }

  lemma FineSnoc(qs: seq<string>, block: string)
    requires AllFine(qs) && FineEntry(block)
    ensures AllFine(qs + [block])
  {
  }

  // ---------- adding ----------

  /** A new entry of an agreeing content shows what was compared or nothing, and stays fine. */
  lemma BlockFine(o: Oracles, c: string, conf: string, today: int)
    requires Lawful(o) && Solid(c) && Agreeing(c) && Needle(o, c).norm != "" && IsConfidence(conf)
    ensures var block := NewBlock(o, c, conf, today);
            && FineEntry(block) && EndsClosed(block)
            && (ProfileOf(o, StripMeta(block)) == Needle(o, c) || ProfileOf(o, StripMeta(block)).norm == "")
  {
    NewBlockSolid(o, c, conf, today);
    BlockShows(o, c, conf, today);
    FinalBreakGoes(Shown(c));
    StripFinalSpace(Shown(c), '\n');
    ProfileIgnoresEnds(o, Shown(c) + "\n", Shown(c));
    AgreeingIsFine(c);
  }

  lemma NewBlockSolid(o: Oracles, c: string, conf: string, today: int)
    requires Lawful(o) && Solid(c) && IsConfidence(conf)
    ensures Solid(NewBlock(o, c, conf, today)) && EndsClosed(NewBlock(o, c, conf, today))
  {
    var kv := BuiltKv(conf, o.isoDate(today), 0);
    NormalIsValue();
    assert DateSurvives(o, today);
    BuiltKvShape(conf, o.isoDate(today), 0);
    CommentEnds(kv);
    CommentSolid(c, kv, "\n");
    Associates(c, Comment(kv), "\n");
  }

  lemma BlockShows(o: Oracles, c: string, conf: string, today: int)
    requires Lawful(o) && IsConfidence(conf)
    ensures StripMeta(NewBlock(o, c, conf, today)) == Shown(c) + "\n"
  {
    var kv := BuiltKv(conf, o.isoDate(today), 0);
    NormalIsValue();
    assert DateSurvives(o, today);
    BuiltKvShape(conf, o.isoDate(today), 0);
    Associates(c, Comment(kv), "\n");
    StripBuilt(c, kv, "\n");
    NewlineIsInert();
  }

  lemma AgreeingIsFine(c: string)
    requires Agreeing(c) && !Blank(StripMeta(c))
    ensures Fine(Next(c))
  {
    if Blank(Shown(c)) {
      BlankIsFine(Shown(c));
    } else if !Mute(c) && !Closed(Next(c)) {
      VanishesScatters(Next(c));
    }
  }

  /** A body in one piece that comes to nothing is a case of scattering. */
  lemma VanishesScatters(b: string)
    requires Solid(b) && Blank(Shown(b))
    ensures Scatters(b)
  {
    var d := BuildMeta("normal", IntText(DAY), 1);
    NormalIsValue();
    IntTextIsValue(DAY);
    assert Written(d, 1);
    WrittenEndsSolid(b, d, 1);
    WrittenShows(b, d, 1);
  }

  lemma AddLevel(o: Oracles, limit: nat, text: string, content: string, conf: string, today: int)
    requires Lawful(o) && FileLevel(o, text) && Agreeing(Clean(content))
    ensures FileLevel(o, AddText(o, limit, text, content, conf, today).0)
  {
    var c := Clean(content);
    CleanedIsSolid(content);
    if c != "" && IsConfidence(conf) {
      ChosenLevel(o, limit, text, c, conf, today, DuplicateIndex(o, text, c));
    }
  }

  lemma ChosenLevel(o: Oracles, limit: nat, text: string, c: string, conf: string, today: int, dup: Option<nat>)
    requires Lawful(o) && FileLevel(o, text) && Agreeing(c) && Solid(c) && IsConfidence(conf)
    requires dup == DuplicateIndex(o, text, c)
    ensures FileLevel(o, AddChosen(o, limit, text, dup, NewBlock(o, c, conf, today), today).0)
  {
    match dup
    case Some(i) => ReinforceLevel(o, text, i, today);
    case None => NewLevel(o, text, c, conf, today);
  }

  lemma NewLevel(o: Oracles, text: string, c: string, conf: string, today: int)
    requires Lawful(o) && FileLevel(o, text) && Solid(c) && Agreeing(c) && IsConfidence(conf)
    requires DuplicateIndex(o, text, c) == None
    ensures FileLevel(o, Appended(text, NewBlock(o, c, conf, today)))
  {
    var block := NewBlock(o, c, conf, today);
    BlockFine(o, c, conf, today);
    NewIsUnlike(o, text, c, ProfileOf(o, StripMeta(block)));
    AppendLevel(o, text, block);
  }

  lemma NewIsUnlike(o: Oracles, text: string, c: string, q: Profile)
    requires DuplicateIndex(o, text, c) == None && (q == Needle(o, c) || q.norm == "")
    ensures forall p :: p in Profiles(o, SplitEntries(text)) ==> !Similar(q, p, DEDUP_THRESHOLD)
  {
    var ps := Profiles(o, SplitEntries(text));
    FirstSimilarInRange(Needle(o, c), ps);
  }

  predicate AddsAgreeing(op: Op) { op.AddOp? && Agreeing(Clean(op.content)) }

  predicate AllAgreeing(ops: seq<Op>) {
    forall i :: 0 <= i < |ops| ==> AddsAgreeing(ops[i])
  }

  lemma StepLevel(o: Oracles, limit: nat, text: string, op: Op)
    requires Lawful(o) && FileLevel(o, text) && AddsAgreeing(op)
    ensures FileLevel(o, StepText(o, limit, text, op))
  {
    AddLevel(o, limit, text, op.content, op.conf, op.today);
  }

  lemma AgreeingFront(ops: seq<Op>)
    requires ops != [] && AllAgreeing(ops)
    ensures AllAgreeing(ops[..|ops| - 1]) && AddsAgreeing(ops[|ops| - 1])
  {
  }

  lemma {:induction false} RunLevel(o: Oracles, limit: nat, ops: seq<Op>) returns (text: string)
    requires Lawful(o) && AllAgreeing(ops)
    ensures text == RunText(o, limit, "", ops) && FileLevel(o, text)
    decreases |ops|
  {
    if ops == [] {
      text := "";
    } else {
      var n := |ops| - 1;
      AgreeingFront(ops);
      var before := RunLevel(o, limit, ops[..n]);
      StepLevel(o, limit, before, ops[n]);
      text := StepText(o, limit, before, ops[n]);
    }
  }

  /**
   * Over runs of adds alone live deduplication agrees with the audit when every content is agreeing;
   * `UnstableEscapes` has a run of adds for every content that is not.
   */
  lemma AddsAgree(o: Oracles, limit: nat, ops: seq<Op>, t: real, cs: seq<seq<nat>>)
    requires Lawful(o) && AllAgreeing(ops) && t >= DEDUP_THRESHOLD
    requires MemoryAudit.AreClusters(Profiles(o, AuditParts(SplitEntries(RunText(o, limit, "", ops)))), t, cs)
    ensures cs == []
  {
    var text := RunLevel(o, limit, ops);
    var ps := SplitEntries(text);
    LevelIsApart(o, text);
    AuditPartsApart(o, ps);
    ApartHasNoCluster(Profiles(o, AuditParts(ps)), t, cs);
  }

  lemma LevelIsApart(o: Oracles, text: string)
    requires FileLevel(o, text)
    ensures Apart(Profiles(o, SplitEntries(text)))
  {
  }
}
