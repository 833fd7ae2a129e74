/**
 * The text format of a memory file: entries joined by a delimiter line, each carrying a hidden
 * metadata comment. The two regular expressions of the source are modelled as scanners.
 */
module EntryFormat {
  import opened Common
  import opened Text

  // ---------- the delimiter ----------

  const DELIMITER := "\n\U{00A7}\n"

  /** `s.split(ENTRY_DELIMITER)` */
  function SplitEntries(s: string): (parts: seq<string>)
    ensures |parts| >= 1
    decreases |s|
  {
    if s == "" then [""]
    else if DELIMITER <= s then [""] + SplitEntries(s[3..])
    else
      var rest := SplitEntries(s[1..]);
      [[s[0]] + rest[0]] + rest[1..]
  }

  /** `ENTRY_DELIMITER.join(parts)` */
  function Join(parts: seq<string>): string {
    if parts == [] then ""
    else if |parts| == 1 then parts[0]
    else parts[0] + (DELIMITER + Join(parts[1..]))
  }

  /** The delimiter does not occur in `s`. */
  predicate DelimFree(s: string)
    decreases |s|
  {
    s == "" || (!(DELIMITER <= s) && DelimFree(s[1..]))
  }

  /** `s` stays in one piece when a delimiter is put after it. */
  predicate Solid(s: string) {
    DelimFree(s + "\n\U{00A7}")
  }

  lemma {:induction false} SplitFirst(s: string, rest: string)
    requires Solid(s)
    ensures SplitEntries(s + (DELIMITER + rest)) == [s] + SplitEntries(rest)
    decreases |s|
  {
    var whole := s + (DELIMITER + rest);
    if s == "" {
      assert whole == DELIMITER + rest;
      assert DELIMITER <= whole;
      assert whole[3..] == rest;
    } else {
      var mark := s + "\n\U{00A7}";
      assert mark[1..] == s[1..] + "\n\U{00A7}";
      assert !(DELIMITER <= mark);
      assert mark[0] == whole[0] && mark[1] == whole[1];
      assert |s| == 1 ==> whole[1] == '\n';
      assert |s| > 1 ==> mark[2] == whole[2];
      assert !(DELIMITER <= whole);
      SplitFirst(s[1..], rest);
      assert whole[1..] == s[1..] + (DELIMITER + rest);
      assert [whole[0]] + s[1..] == s;
    }
  }

  lemma {:induction false} SplitSingle(s: string)
    requires DelimFree(s)
    ensures SplitEntries(s) == [s]
    decreases |s|
  {
    if s != "" {
      SplitSingle(s[1..]);
      assert [s[0]] + s[1..] == s;
    }
  }

  lemma {:induction false} DelimFreePrefix(s: string, t: string)
    requires DelimFree(s + t)
    ensures DelimFree(s)
    decreases |s|
  {
    if s != "" {
      assert (s + t)[1..] == s[1..] + t;
      DelimFreePrefix(s[1..], t);
      assert DELIMITER <= s ==> DELIMITER <= s + t;
    }
  }

  /** Splitting undoes joining, for pieces that stay in one piece. */
  lemma {:induction false} SplitJoin(parts: seq<string>)
    requires |parts| >= 1 && forall i :: 0 <= i < |parts| ==> Solid(parts[i])
    ensures SplitEntries(Join(parts)) == parts
    decreases |parts|
  {
    if |parts| == 1 {
      DelimFreePrefix(parts[0], "\n\U{00A7}");
      SplitSingle(parts[0]);
    } else {
      SplitJoin(parts[1..]);
      SplitFirst(parts[0], Join(parts[1..]));
    }
  }

  /** Joining undoes splitting, always. */
  lemma {:induction false} JoinSplit(s: string)
    ensures Join(SplitEntries(s)) == s
    decreases |s|
  {
    if s == "" {
    } else if DELIMITER <= s {
      JoinSplit(s[3..]);
      var rest := SplitEntries(s[3..]);
      assert ([""] + rest)[1..] == rest;
      assert s == DELIMITER + s[3..];
    } else {
      JoinSplit(s[1..]);
      var rest := SplitEntries(s[1..]);
      var parts := [[s[0]] + rest[0]] + rest[1..];
      assert parts[1..] == rest[1..];
      if |rest| == 1 {
        assert s == [s[0]] + s[1..];
      } else {
        assert Join(parts) == ([s[0]] + rest[0]) + (DELIMITER + Join(rest[1..]));
        assert Join(rest) == rest[0] + (DELIMITER + Join(rest[1..]));
        assert s == [s[0]] + s[1..];
      }
    }
  }

  // ---------- the metadata comment ----------

  function SkipSpace(s: string, i: nat): (j: nat)
    requires i <= |s|
    ensures i <= j <= |s|
    ensures j < |s| ==> !IsSpace(s[j])
    ensures forall k :: i <= k < j ==> IsSpace(s[k])
    decreases |s| - i
  {
    if i < |s| && IsSpace(s[i]) then SkipSpace(s, i + 1) else i
  }

  function Lower(c: char): char {
    if 'A' <= c <= 'Z' then c - 'A' + 'a' else c
  }

  predicate MatchesTag(s: string, i: nat) {
    && i + 9 <= |s|
    && Lower(s[i]) == 'a' && Lower(s[i + 1]) == 'l' && Lower(s[i + 2]) == 'p' && Lower(s[i + 3]) == 'i'
    && s[i + 4] == '-'
    && Lower(s[i + 5]) == 'm' && Lower(s[i + 6]) == 'e' && Lower(s[i + 7]) == 't' && Lower(s[i + 8]) == 'a'
  }

  predicate OpensMarkup(s: string) {
    |s| >= 4 && s[0] == '<' && s[1] == '!' && s[2] == '-' && s[3] == '-'
  }

  /**
   * Matches `<!--\\s*alpi-meta\\s` at the start of `s` and returns the position after it; 0 when
   * it does not match.
   */
  function Opening(s: string): (p: nat)
    ensures p <= |s|
  {
    if OpensMarkup(s) then
      var k := SkipSpace(s, 4);
      if MatchesTag(s, k) && k + 9 < |s| && IsSpace(s[k + 9]) then k + 10 else 0
    else 0
  }

  /** The first `>` at or after `i`, or the length of `s`. */
  function FindGt(s: string, i: nat): (q: nat)
    requires i <= |s|
    ensures i <= q <= |s|
    ensures q < |s| ==> s[q] == '>'
    ensures forall k :: i <= k < q ==> s[k] != '>'
    decreases |s| - i
  {
    if i < |s| && s[i] != '>' then FindGt(s, i + 1) else i
  }

  /** Length of a whole comment at the start of `s`, without the optional newline; 0 for none. */
  function MarkerLength(s: string): (n: nat)
    ensures n <= |s|
  {
    var p := Opening(s);
    if p == 0 then 0
    else
      var q := FindGt(s, p);
      if p + 2 <= q < |s| && s[q - 1] == '-' && s[q - 2] == '-' then q + 1 else 0
  }

  /** Length of a match of the whole metadata pattern at the start of `s`; 0 for none. */
  function MatchLength(s: string): (n: nat)
    ensures n <= |s|
    ensures s == "" ==> n == 0
  {
    if s != "" && s[0] == '\n' && MarkerLength(s[1..]) > 0 then 1 + MarkerLength(s[1..])
    else MarkerLength(s)
  }

  /** `strip_meta` */
  function StripMeta(s: string): (r: string)
    ensures |r| <= |s|
    decreases |s|
  {
    if s == "" then ""
    else if MatchLength(s) > 0 then StripMeta(s[MatchLength(s)..])
    else [s[0]] + StripMeta(s[1..])
  }

  /** The comment around the key-value text `kv`, as `_build_meta` writes it. */
  function Comment(kv: string): string {
    COMMENT_HEAD + kv + COMMENT_TAIL
  }

  const COMMENT_HEAD := "\n<!-- alpi-meta "
  const COMMENT_TAIL := " -->"

  predicate NoGt(s: string) { forall i :: 0 <= i < |s| ==> s[i] != '>' }

  /**
   * Appending a comment leaves `b` visible: no marker in `b`, and none that the comment's own
   * closing would complete. Tested by closing `b` with a bare `-->`.
   */
  predicate Closed(b: string)
    decreases |b|
  {
    b == "" || (MatchLength(b + "\n-->") == 0 && Closed(b[1..]))
  }

  /** What is left of `b` for later readers once a comment has been written behind it. */
  function Shown(b: string): (r: string)
    ensures |r| <= |b|
    decreases |b|
  {
    if b == "" then ""
    else
      var m := MatchLength(b + "\n-->");
      if m == 0 then [b[0]] + Shown(b[1..])
      else if m <= |b| then Shown(b[m..])
      else ""
  }

  /** All of `b` is left exactly when it is closed. */
  lemma {:induction false} ShownClosed(b: string)
    ensures Closed(b) ==> Shown(b) == b
    ensures !Closed(b) ==> |Shown(b)| < |b|
    decreases |b|
  {
    if b != "" && MatchLength(b + "\n-->") == 0 {
      ShownClosed(b[1..]);
      ShownHere(b);
      ConsOf(b, Shown(b[1..]));
    }
  }

  lemma ShownHere(t: string)
    requires t != "" && MatchLength(t + "\n-->") == 0
    ensures Shown(t) == [t[0]] + Shown(t[1..])
  {
  }

  lemma ConsOf(b: string, t: string)
    requires b != ""
    ensures [b[0]] + t == b <==> t == b[1..]
  {
    if [b[0]] + t == b { assert ([b[0]] + t)[1..] == t; }
  }

  // Both closers look the same to an opening that starts inside the body.

  /** Text before which no opening is left half-read. */
  predicate Breaks(x: string) {
    |x| >= 2 && x[0] == '\n' && !IsSpace(x[1]) && Lower(x[1]) != 'a'
  }

  predicate IsCloser(x: string) {
    && |x| >= 4 && Breaks(x)
    && FindGt(x, 1) >= 3 && FindGt(x, 1) < |x|
    && x[FindGt(x, 1) - 1] == '-' && x[FindGt(x, 1) - 2] == '-'
  }

  lemma {:induction false} SkipSpaceBefore(b: string, x: string, i: nat)
    requires i <= |b| && Breaks(x)
    ensures SkipSpace(b, i) < |b| ==> SkipSpace(b + x, i) == SkipSpace(b, i)
    ensures SkipSpace(b, i) == |b| ==> SkipSpace(b + x, i) == |b| + 1
    decreases |b| - i
  {
    if i < |b| && IsSpace(b[i]) {
      SkipSpaceBefore(b, x, i + 1);
    } else if i == |b| {
      assert (b + x)[i] == '\n' && (b + x)[i + 1] == x[1];
      assert SkipSpace(b + x, i) == SkipSpace(b + x, i + 1);
    }
  }

  /** Whether an opening starts at the head of `b` does not depend on the closer after it. */
  lemma OpeningIndependent(b: string, x: string, y: string)
    requires b != "" && Breaks(x) && Breaks(y)
    ensures Opening(b + x) == Opening(b + y) <= |b| + 1
  {
    if |b| < 4 {
      ShortOpensNothing(b, x);
      ShortOpensNothing(b, y);
    } else if SkipSpace(b, 4) == |b| {
      SpaceOpensNothing(b, x);
      SpaceOpensNothing(b, y);
    } else {
      OpeningAtTag(b, x, y, SkipSpace(b, 4));
    }
  }

  lemma ShortOpensNothing(b: string, x: string)
    requires |b| < 4 && Breaks(x)
    ensures Opening(b + x) == 0
  {
    assert (b + x)[|b|] == '\n';
  }

  lemma SpaceOpensNothing(b: string, x: string)
    requires |b| >= 4 && SkipSpace(b, 4) == |b| && Breaks(x)
    ensures Opening(b + x) == 0
  {
    SkipSpaceBefore(b, x, 4);
    assert (b + x)[|b| + 1] == x[1];
    assert !MatchesTag(b + x, |b| + 1);
  }

  lemma OpeningAtTag(b: string, x: string, y: string, k: nat)
    requires |b| >= 4 && k == SkipSpace(b, 4) < |b| && Breaks(x) && Breaks(y)
    ensures Opening(b + x) == Opening(b + y) <= |b| + 1
  {
    var s, t := b + x, b + y;
    SkipSpaceBefore(b, x, 4);
    SkipSpaceBefore(b, y, 4);
    TagIndependent(b, x, y, k);
    SameChars(b, x, y);
    assert OpensMarkup(s) == OpensMarkup(t);
    if MatchesTag(s, k) { assert s[k + 9] == t[k + 9]; }
  }

  lemma SameChars(b: string, x: string, y: string)
    requires Breaks(x) && Breaks(y)
    ensures forall j :: 0 <= j <= |b| ==> (b + x)[j] == (b + y)[j]
  {
  }

  lemma TagIndependent(b: string, x: string, y: string, k: nat)
    requires k < |b| && Breaks(x) && Breaks(y)
    ensures MatchesTag(b + x, k) == MatchesTag(b + y, k)
    ensures MatchesTag(b + x, k) ==> k + 9 <= |b|
  {
    var s, t := b + x, b + y;
    assert s[|b|] == '\n' && t[|b|] == '\n';
    assert forall j :: 0 <= j < |b| ==> s[j] == b[j] && t[j] == b[j];
    if k + 9 > |b| {
      var j := |b| - k;
      assert s[k + j] == '\n' && t[k + j] == '\n';
    }
  }

  lemma FindGtIs(s: string, p: nat, q: nat)
    requires p <= q < |s| && s[q] == '>' && forall k :: p <= k < q ==> s[k] != '>'
    ensures FindGt(s, p) == q
  {
  }

  lemma FindGtAcross(b: string, x: string, p: nat)
    requires p <= |b| + 1 && IsCloser(x)
    ensures FindGt(b + x, p) ==
            if p <= |b| && FindGt(b, p) < |b| then FindGt(b, p) else |b| + FindGt(x, 1)
  {
    var s := b + x;
    assert forall j :: 0 <= j < |b| ==> s[j] == b[j];
    assert forall j :: |b| <= j < |s| ==> s[j] == x[j - |b|];
    if p <= |b| && FindGt(b, p) < |b| {
      FindGtIs(s, p, FindGt(b, p));
    } else {
      FindGtIs(s, p, |b| + FindGt(x, 1));
    }
  }

  lemma MarkerIndependent(b: string, x: string, y: string)
    requires b != "" && IsCloser(x) && IsCloser(y)
    ensures MarkerLength(b + x) > 0 <==> MarkerLength(b + y) > 0
    ensures MarkerLength(b + x) <= |b| ==> MarkerLength(b + y) == MarkerLength(b + x)
    ensures MarkerLength(b + x) > |b| ==> MarkerLength(b + x) == |b| + FindGt(x, 1) + 1
  {
    OpeningIndependent(b, x, y);
    var p := Opening(b + x);
    if p > 0 {
      FindGtAcross(b, x, p);
      FindGtAcross(b, y, p);
      var g, h := FindGt(x, 1), FindGt(y, 1);
      assert forall j :: 0 <= j < |b| ==> (b + x)[j] == (b + y)[j];
      assert (b + x)[|b| + g - 1] == x[g - 1] && (b + x)[|b| + g - 2] == x[g - 2];
      assert (b + y)[|b| + h - 1] == y[h - 1] && (b + y)[|b| + h - 2] == y[h - 2];
    }
  }

  /** Whether a match starts at the head of `b`, and how long it is, does not depend on the closer. */
  lemma MatchIndependent(b: string, x: string, y: string)
    requires b != "" && IsCloser(x) && IsCloser(y)
    ensures MatchLength(b + x) > 0 <==> MatchLength(b + y) > 0
    ensures MatchLength(b + x) <= |b| ==> MatchLength(b + y) == MatchLength(b + x)
    ensures MatchLength(b + x) > |b| ==> MatchLength(b + x) == |b| + FindGt(x, 1) + 1
  {
    MarkerIndependent(b, x, y);
    if b[0] == '\n' {
      assert (b + x)[1..] == b[1..] + x && (b + y)[1..] == b[1..] + y;
      if |b| == 1 {
        assert b[1..] + x == x && b[1..] + y == y;
      } else {
        MarkerIndependent(b[1..], x, y);
      }
    }
  }

  // ---------- stripping what was built ----------

  lemma CommentMatches(kv: string, rest: string)
    requires NoGt(kv)
    ensures var x := Comment(kv) + rest;
            && IsCloser(x)
            && FindGt(x, 1) + 1 == |Comment(kv)|
            && MatchLength(x) == |Comment(kv)|
            && Opening(x[1..]) == 15
  {
    var x := Comment(kv) + rest;
    CommentHead(kv, rest);
    ClosedComment(x, |Comment(kv)|);
  }

  /** The head of a comment is an opening. */
  lemma CommentHead(kv: string, rest: string)
    ensures var x := Comment(kv) + rest;
            |x| > 16 && Breaks(x) && Opening(x[1..]) == 15
  {
    var x := Comment(kv) + rest;
    assert |COMMENT_HEAD| == 16;
    assert forall j :: 0 <= j < 16 ==> x[j] == COMMENT_HEAD[j];
    var t := x[1..];
    assert t[4] == x[5] && t[5] == x[6] && t[6] == x[7] && t[7] == x[8] && t[8] == x[9];
    assert t[9] == x[10] && t[10] == x[11] && t[11] == x[12] && t[12] == x[13] && t[13] == x[14] && t[14] == x[15];
    assert SkipSpace(t, 5) == 5;
    assert MatchesTag(t, 5);
  }

  predicate ClosesAt(x: string, n: nat) {
    && 20 <= n <= |x| && x[n - 1] == '>' && x[n - 2] == '-' && x[n - 3] == '-'
    && forall k :: 1 <= k < n - 1 ==> x[k] != '>'
  }

  lemma ClosedComment(x: string, n: nat)
    requires ClosesAt(x, n) && Breaks(x) && Opening(x[1..]) == 15
    ensures IsCloser(x) && FindGt(x, 1) + 1 == n && MatchLength(x) == n
  {
    FindGtIs(x, 1, n - 1);
    FindGtIs(x[1..], 15, n - 2);
  }

  /** `x` is a whole match of length `n` followed by `rest`, and closes any opening before it. */
  predicate IsComment(x: string, n: nat, rest: string) {
    n <= |x| && IsCloser(x) && FindGt(x, 1) + 1 == n && MatchLength(x) == n && x[n..] == rest
  }

  lemma {:induction false} StripBefore(b: string, x: string, n: nat, rest: string)
    requires IsComment(x, n, rest)
    ensures StripMeta(b + x) == Shown(b) + StripMeta(rest)
    decreases |b|
  {
    if b == "" {
      assert b + x == x;
      assert "" + StripMeta(rest) == StripMeta(rest);
    } else {
      ClosingDash();
      MatchIndependent(b, x, "\n-->");
      MatchIndependent(b, "\n-->", x);
      var m := MatchLength(b + x);
      if m == 0 {
        StripBefore(b[1..], x, n, rest);
        StripNoMatch(b, x, Shown(b[1..]), StripMeta(rest));
      } else {
        if m <= |b| { StripBefore(b[m..], x, n, rest); }
        StripMatch(b, x, n, m);
        assert "" + StripMeta(rest) == StripMeta(rest);
      }
    }
  }

  lemma ClosingDash()
    ensures IsCloser("\n-->")
  {
  }

  lemma StripNoMatch(b: string, x: string, shown: string, y: string)
    requires b != "" && MatchLength(b + x) == 0 && StripMeta(b[1..] + x) == shown + y
    ensures StripMeta(b + x) == ([b[0]] + shown) + y
  {
    HeadAndTail(b, x, y);
  }

  lemma StripMatch(b: string, x: string, n: nat, m: nat)
    requires b != "" && n <= |x| && 0 < m == MatchLength(b + x) && (m > |b| ==> m == |b| + n)
    ensures StripMeta(b + x) == if m <= |b| then StripMeta(b[m..] + x) else StripMeta(x[n..])
  {
    if m <= |b| { DropInside(b, x, m); } else { DropBeyond(b, x, n); }
  }

  lemma DropInside(b: string, x: string, m: nat)
    requires m <= |b|
    ensures (b + x)[m..] == b[m..] + x
  {
  }

  lemma DropBeyond(b: string, x: string, n: nat)
    requires n <= |x|
    ensures (b + x)[|b| + n..] == x[n..]
  {
  }

  lemma HeadAndTail(b: string, x: string, y: string)
    requires b != ""
    ensures (b + x)[0] == b[0] && (b + x)[1..] == b[1..] + x
    ensures [b[0]] + (b[1..] + y) == b + y
  {
  }

  /**
   * What stripping leaves of a text with a comment behind it: all of the text exactly when it is
   * closed.
   */
  lemma StripBuilt(b: string, kv: string, rest: string)
    requires NoGt(kv)
    ensures StripMeta(b + (Comment(kv) + rest)) == Shown(b) + StripMeta(rest)
    ensures Shown(b) == b <==> Closed(b)
  {
    CommentMatches(kv, rest);
    StripBefore(b, Comment(kv) + rest, |Comment(kv)|, rest);
    ShownClosed(b);
  }

  // ---------- parsing what was built ----------

  predicate IsWord(c: char) {
    'a' <= c <= 'z' || 'A' <= c <= 'Z' || '0' <= c <= '9' || c == '_'
  }

  function WordRun(s: string): (n: nat)
    ensures n <= |s|
    decreases |s|
  {
    if s != "" && IsWord(s[0]) then 1 + WordRun(s[1..]) else 0
  }

  function ValueRun(s: string): (n: nat)
    ensures n <= |s|
    decreases |s|
  {
    if s != "" && !IsSpace(s[0]) then 1 + ValueRun(s[1..]) else 0
  }

  /** Length of a match of `(\w+)=([^\s]+)` at the start of `s`; 0 for none. */
  function TokenLength(s: string): (n: nat)
    ensures n <= |s|
    ensures n > 0 ==> WordRun(s) + 1 < n
  {
    var w := WordRun(s);
    if 0 < w < |s| && s[w] == '=' && ValueRun(s[w + 1..]) > 0 then w + 1 + ValueRun(s[w + 1..]) else 0
  }

  /** The key-value pairs found by `(\w+)=([^\s]+)`, later ones overriding earlier ones. */
  function Tokens(s: string): map<string, string>
    decreases |s|
  {
    if s == "" then map[]
    else if TokenLength(s) > 0 then
      map[s[..WordRun(s)] := s[WordRun(s) + 1..TokenLength(s)]] + Tokens(s[TokenLength(s)..])
    else Tokens(s[1..])
  }

  /** The key-value text of a comment at the start of `s`. */
  function Kv(s: string): string
    requires MarkerLength(s) > 0
  {
    Strip(s[Opening(s)..MarkerLength(s) - 3])
  }

  /** The key-value text of the last comment in `s`. */
  function LastKv(s: string): Option<string>
    decreases |s|
  {
    if s == "" then None
    else if MatchLength(s) > 0 then
      var later := LastKv(s[MatchLength(s)..]);
      if later.Some? then later
      else Some(Kv(if s[0] == '\n' && MarkerLength(s[1..]) > 0 then s[1..] else s))
    else LastKv(s[1..])
  }

  /** `parse_meta` */
  function ParseMeta(entry: string): map<string, string> {
    match LastKv(entry)
    case None => map[]
    case Some(kv) => Tokens(kv)
  }

  /** The key-value text of `_build_meta`. */
  function BuiltKv(conf: string, captured: string, reinforced: int): string {
    Pair("conf", conf, " " + Pair("captured", captured, " " + Pair("reinforced", IntText(reinforced), "")))
  }

  /** `str(n)` */
  function IntText(n: int): (s: string)
    ensures s != ""
  {
    if n < 0 then "-" + Decimal(-n) else Decimal(n)
  }

  /** `int(s)` on an optionally signed string of ASCII digits; `None` where it raises. */
  function ParseInt(s: string): Option<int> {
    if IsDecimal(s) then Some(ParseDecimal(s))
    else if s != "" && s[0] == '+' && IsDecimal(s[1..]) then Some(ParseDecimal(s[1..]))
    else if s != "" && s[0] == '-' && IsDecimal(s[1..]) then Some(0 - ParseDecimal(s[1..]))
    else None
  }

  lemma ParseIntRoundTrip(n: int)
    ensures ParseInt(IntText(n)) == Some(n)
  {
    if n < 0 {
      DecimalRoundTrip(-n);
      SignedText(Decimal(-n), -n);
    } else {
      DecimalRoundTrip(n);
      UnsignedText(Decimal(n), n);
    }
  }

  lemma SignedText(s: string, n: int)
    requires IsDecimal(s) && ParseDecimal(s) == n
    ensures ParseInt("-" + s) == Some(-n)
  {
    var t := "-" + s;
    assert t[0] == '-';
    assert t[1..] == s;
    assert !IsDecimal(t);
  }

  lemma UnsignedText(s: string, n: int)
    requires IsDecimal(s) && ParseDecimal(s) == n
    ensures ParseInt(s) == Some(n)
  {
  }

  function Pair(k: string, v: string, rest: string): string {
    k + ("=" + (v + rest))
  }

  function BuildMeta(conf: string, captured: string, reinforced: int): string {
    Comment(BuiltKv(conf, captured, reinforced))
  }

  /** A value that survives the metadata format. */
  predicate IsValue(v: string) {
    v != "" && forall i :: 0 <= i < |v| ==> !IsSpace(v[i]) && v[i] != '>'
  }

  lemma {:induction false} ValueRunIs(v: string, rest: string)
    requires IsValue(v) || v == ""
    requires rest == "" || IsSpace(rest[0])
    ensures ValueRun(v + rest) == |v|
    decreases |v|
  {
    if v == "" {
      assert v + rest == rest;
    } else {
      assert (v + rest)[1..] == v[1..] + rest;
      ValueRunIs(v[1..], rest);
    }
  }

  lemma {:induction false} WordRunIs(k: string, rest: string)
    requires forall i :: 0 <= i < |k| ==> IsWord(k[i])
    requires rest == "" || !IsWord(rest[0])
    ensures WordRun(k + rest) == |k|
    decreases |k|
  {
    if k == "" {
      assert k + rest == rest;
    } else {
      assert (k + rest)[1..] == k[1..] + rest;
      WordRunIs(k[1..], rest);
    }
  }

  predicate IsKey(k: string) { k != "" && forall i :: 0 <= i < |k| ==> IsWord(k[i]) }

  lemma PairShape(k: string, v: string, rest: string)
    ensures var s := Pair(k, v, rest);
            && |s| == |k| + 1 + |v| + |rest|
            && s[..|k|] == k && s[|k|] == '=' && s[|k| + 1..] == v + rest
            && s[|k| + 1..|k| + 1 + |v|] == v && s[|k| + 1 + |v|..] == rest
  {
  }

  lemma TokenLengthOfPair(k: string, v: string, rest: string)
    requires IsKey(k) && IsValue(v) && (rest == "" || IsSpace(rest[0]))
    ensures WordRun(Pair(k, v, rest)) == |k|
    ensures TokenLength(Pair(k, v, rest)) == |k| + 1 + |v|
  {
    WordRunIs(k, "=" + (v + rest));
    ValueRunIs(v, rest);
    PairShape(k, v, rest);
  }

  lemma TokenFirst(k: string, v: string, rest: string)
    requires IsKey(k) && IsValue(v) && (rest == "" || IsSpace(rest[0]))
    ensures Tokens(Pair(k, v, rest)) == map[k := v] + Tokens(rest)
  {
    TokenLengthOfPair(k, v, rest);
    PairShape(k, v, rest);
    TokensUnfold(Pair(k, v, rest), k, v, rest);
  }

  lemma TokensUnfold(s: string, k: string, v: string, rest: string)
    requires s != "" && WordRun(s) == |k| && TokenLength(s) == |k| + 1 + |v| <= |s|
    requires s[..|k|] == k && s[|k| + 1..|k| + 1 + |v|] == v && s[|k| + 1 + |v|..] == rest
    ensures Tokens(s) == map[k := v] + Tokens(rest)
  {
  }

  /** Pairs separated by a space. */
  lemma TokenThen(k: string, v: string, rest: string)
    requires IsKey(k) && IsValue(v)
    ensures Tokens(Pair(k, v, " " + rest)) == map[k := v] + Tokens(rest)
  {
    TokenFirst(k, v, " " + rest);
    assert (" " + rest)[1..] == rest;
  }

  /** The pairs of the built text are the three values that went in. */
  lemma TokensOfBuilt(conf: string, captured: string, reinforced: int)
    requires IsValue(conf) && IsValue(captured)
    ensures Tokens(BuiltKv(conf, captured, reinforced))
            == map["conf" := conf] + (map["captured" := captured] + map["reinforced" := IntText(reinforced)])
  {
    IntTextIsValue(reinforced);
    TokensOfThree("conf", conf, "captured", captured, "reinforced", IntText(reinforced));
  }

  lemma IntTextIsValue(n: int)
    ensures IsValue(IntText(n)) && Plain(IntText(n)) && !IsSpace(IntText(n)[|IntText(n)| - 1])
  {
  }

  lemma TokensOfThree(k1: string, v1: string, k2: string, v2: string, k3: string, v3: string)
    requires IsKey(k1) && IsKey(k2) && IsKey(k3) && IsValue(v1) && IsValue(v2) && IsValue(v3)
    ensures Tokens(Pair(k1, v1, " " + Pair(k2, v2, " " + Pair(k3, v3, ""))))
            == map[k1 := v1] + (map[k2 := v2] + map[k3 := v3])
  {
    TokenFirst(k3, v3, "");
    assert Tokens(Pair(k3, v3, "")) == map[k3 := v3];
    TokenThen(k2, v2, Pair(k3, v3, ""));
    TokenThen(k1, v1, Pair(k2, v2, " " + Pair(k3, v3, "")));
  }

  lemma BuiltKvShape(conf: string, captured: string, reinforced: int)
    requires IsValue(conf) && IsValue(captured)
    ensures NoGt(BuiltKv(conf, captured, reinforced))
    ensures Trimmed(BuiltKv(conf, captured, reinforced))
    ensures Plain(BuiltKv(conf, captured, reinforced))
  {
    var n := IntText(reinforced);
    IntTextIsValue(reinforced);
    var r3 := Pair("reinforced", n, "");
    var r2 := Pair("captured", captured, " " + r3);
    var kv := Pair("conf", conf, " " + r2);
    assert r3[|r3| - 1] == n[|n| - 1];
    assert r2[|r2| - 1] == r3[|r3| - 1];
    assert kv[|kv| - 1] == r2[|r2| - 1] && kv[0] == 'c';
  }

  predicate Plain(s: string) { forall i :: 0 <= i < |s| ==> s[i] != '>' && s[i] != '\n' }

  lemma {:induction false} NoNewlineNoDelimiter(s: string)
    requires forall i :: 0 <= i < |s| ==> s[i] != '\n'
    ensures DelimFree(s)
    decreases |s|
  {
    if s != "" {
      assert DELIMITER[0] == '\n';
      NoNewlineNoDelimiter(s[1..]);
    }
  }

  /** What can stand before the key-value text when an opening in the body swallows the comment. */
  predicate Leads(lead: string) {
    lead == "" || IsSpace(lead[|lead| - 1])
  }

  lemma LastKvSkips(b: string, x: string)
    requires b != "" && MatchLength(b + x) == 0
    ensures LastKv(b + x) == LastKv(b[1..] + x)
  {
    assert (b + x)[1..] == b[1..] + x;
  }

  lemma LastKvPasses(b: string, x: string, m: nat)
    requires b != "" && 0 < m == MatchLength(b + x) <= |b| && LastKv(b[m..] + x).Some?
    ensures LastKv(b + x) == LastKv(b[m..] + x)
  {
    DropInside(b, x, m);
  }

  /** Where the metadata pattern's own text starts in a match. */
  function Inner(s: string): string {
    if s != "" && s[0] == '\n' && MarkerLength(s[1..]) > 0 then s[1..] else s
  }

  lemma LastKvHere(s: string)
    requires s != "" && MatchLength(s) > 0 && LastKv(s[MatchLength(s)..]) == None
    ensures LastKv(s) == Some(Kv(Inner(s)))
  {
  }

  /** `k` ends in `kv`, and what stands before it ends in white space. */
  predicate Trails(k: string, kv: string) {
    |k| >= |kv| && k[|k| - |kv|..] == kv && Leads(k[..|k| - |kv|])
  }

  lemma LeadTrails(lead: string, kv: string)
    requires Leads(lead)
    ensures Trails(lead + kv, kv)
  {
  }

  /** The last comment read is the one appended, whole or at the end of one that swallowed it. */
  lemma LastKvOfBuilt(b: string, kv: string, rest: string)
    requires NoGt(kv) && Trimmed(kv) && kv != "" && LastKv(rest) == None
    ensures LastKv(b + (Comment(kv) + rest)).Some? && Trails(LastKv(b + (Comment(kv) + rest)).value, kv)
    ensures Closed(b) ==> LastKv(b + (Comment(kv) + rest)) == Some(kv)
  {
    CommentMatches(kv, rest);
    KvOfComment(kv, rest);
    LastKvHere(Comment(kv) + rest);
    LastKvBefore(b, kv, rest, Comment(kv) + rest, |Comment(kv)|, Closed(b));
  }

  /** A match that starts in the body ends in the body or with the comment. */
  lemma MatchEnds(b: string, x: string, n: nat)
    requires b != "" && IsCloser(x) && FindGt(x, 1) + 1 == n
    ensures MatchLength(b + x) <= |b| || MatchLength(b + x) == |b| + n
    ensures MatchLength(b + "\n-->") == 0 ==> MatchLength(b + x) == 0
  {
    ClosingDash();
    MatchIndependent(b, x, "\n-->");
  }

  /** A comment was read whose text ends in `kv`, and is `kv` when it has to be. */
  predicate ReadsAs(k: Option<string>, kv: string, exact: bool) {
    k.Some? && Trails(k.value, kv) && (exact ==> k.value == kv)
  }

  /** `x` is the comment around `kv`, `n` characters long, with `rest` behind it. */
  predicate IsBuilt(x: string, kv: string, rest: string, n: nat) {
    && NoGt(kv) && Trimmed(kv) && kv != "" && LastKv(rest) == None
    && x == Comment(kv) + rest && n == |Comment(kv)| && IsComment(x, n, rest) && LastKv(x) == Some(kv)
  }

  lemma {:induction false} LastKvBefore(b: string, kv: string, rest: string, x: string, n: nat, exact: bool)
    requires IsBuilt(x, kv, rest, n) && (exact ==> Closed(b))
    ensures ReadsAs(LastKv(b + x), kv, exact)
    decreases |b|
  {
    if b == "" {
      LeadTrails("", kv);
      assert b + x == x && "" + kv == kv;
      return;
    }
    ClosedSteps(b, x, n);
    var m := MatchLength(b + x);
    if m > |b| {
      Swallowed(b, kv, rest, x, n);
      return;
    }
    var d := if m == 0 then 1 else m;
    LastKvBefore(b[d..], kv, rest, x, n, exact && m == 0);
    LastKvDrops(b, x, m, d);
  }

  lemma LastKvDrops(b: string, x: string, m: nat, d: nat)
    requires b != "" && m == MatchLength(b + x) <= |b| && d == (if m == 0 then 1 else m) && LastKv(b[d..] + x).Some?
    ensures LastKv(b + x) == LastKv(b[d..] + x)
  {
    if m == 0 { LastKvSkips(b, x); } else { LastKvPasses(b, x, m); }
  }

  lemma ClosedSteps(b: string, x: string, n: nat)
    requires b != "" && IsCloser(x) && FindGt(x, 1) + 1 == n
    ensures MatchLength(b + x) <= |b| || MatchLength(b + x) == |b| + n
    ensures Closed(b) ==> MatchLength(b + x) == 0 && Closed(b[1..])
  {
    MatchEnds(b, x, n);
  }

  lemma Swallowed(b: string, kv: string, rest: string, x: string, n: nat)
    requires NoGt(kv) && Trimmed(kv) && kv != "" && LastKv(rest) == None
    requires x == Comment(kv) + rest && n == |Comment(kv)| && IsComment(x, n, rest)
    requires b != "" && MatchLength(b + x) == |b| + n
    ensures LastKv(b + x).Some? && Trails(LastKv(b + x).value, kv)
  {
    DropBeyond(b, x, n);
    var lead := SwallowedInner(b, kv, rest, x, n);
    LastKvTrails(b + x, |b| + n, rest, lead, kv);
  }

  lemma LastKvTrails(s: string, m: nat, rest: string, lead: string, kv: string)
    requires s != "" && 0 < m == MatchLength(s) && s[m..] == rest && LastKv(rest) == None
    requires MarkerLength(Inner(s)) > 0 && Kv(Inner(s)) == lead + kv && Leads(lead)
    ensures LastKv(s).Some? && Trails(LastKv(s).value, kv)
  {
    LastKvHere(s);
    LeadTrails(lead, kv);
  }

  lemma SwallowedInner(b: string, kv: string, rest: string, x: string, n: nat) returns (lead: string)
    requires NoGt(kv) && Trimmed(kv) && kv != "" && x == Comment(kv) + rest && n == |Comment(kv)| && x[0] == '\n'
    requires b != "" && MatchLength(b + x) == |b| + n
    ensures Leads(lead) && MarkerLength(Inner(b + x)) > 0 && Kv(Inner(b + x)) == lead + kv
  {
    if b[0] == '\n' && MarkerLength((b + x)[1..]) > 0 {
      BehindBreak(b, x);
      lead := SwallowedKv(b[1..], kv, rest);
    } else {
      lead := SwallowedKv(b, kv, rest);
    }
  }

  /** A comment that starts behind a line break of the body starts in the body. */
  lemma BehindBreak(b: string, x: string)
    requires b != "" && x != "" && x[0] == '\n' && MarkerLength((b + x)[1..]) > 0
    ensures (b + x)[1..] == b[1..] + x && b[1..] != ""
  {
    assert (b + x)[1..] == b[1..] + x;
    assert (b + x)[1..][0] == '<';
  }

  lemma SwallowedKv(b: string, kv: string, rest: string) returns (lead: string)
    requires NoGt(kv) && Trimmed(kv) && kv != ""
    requires b != "" && MarkerLength(b + (Comment(kv) + rest)) == |b| + |Comment(kv)|
    ensures Leads(lead) && Kv(b + (Comment(kv) + rest)) == lead + kv
  {
    var p := SwallowedOpening(b, kv, rest);
    HeadEndsInSpace(b, p);
    InsideSwallowed(b, kv, rest, p);
    lead := Lstrip((b + COMMENT_HEAD)[p..]);
    StripAfter((b + COMMENT_HEAD)[p..], kv);
  }

  lemma SwallowedOpening(b: string, kv: string, rest: string) returns (p: nat)
    requires NoGt(kv) && b != ""
    ensures p == Opening(b + (Comment(kv) + rest)) <= |b| + 1
  {
    CommentMatches(kv, rest);
    ClosingDash();
    OpeningIndependent(b, Comment(kv) + rest, "\n-->");
    p := Opening(b + (Comment(kv) + rest));
  }

  lemma StripAfter(head: string, kv: string)
    requires Trimmed(kv) && kv != "" && head != "" && IsSpace(head[|head| - 1])
    ensures Strip(head + (kv + " ")) == Lstrip(head) + kv && Leads(Lstrip(head))
  {
    LstripIsSuffix(head);
    LstripBefore(head, kv + " ");
    SpaceAtEnd(head, Lstrip(head));
    RstripThere(Lstrip(head), kv);
  }

  lemma SpaceAtEnd(head: string, lead: string)
    requires |lead| <= |head| && lead == head[|head| - |lead|..] && head != "" && IsSpace(head[|head| - 1])
    ensures Leads(lead)
  {
  }

  lemma RstripThere(lead: string, kv: string)
    requires kv != "" && !IsSpace(kv[|kv| - 1])
    ensures Rstrip(lead + (kv + " ")) == lead + kv
  {
    Associates(lead, kv, " ");
    RstripSpace(lead + kv);
  }

  lemma Associates(a: string, b: string, c: string)
    ensures a + (b + c) == (a + b) + c
  {
  }

  lemma HeadEndsInSpace(b: string, p: nat)
    requires p <= |b| + 1
    ensures var h := (b + COMMENT_HEAD)[p..]; h != "" && h[|h| - 1] == ' '
  {
    assert |COMMENT_HEAD| == 16 && COMMENT_HEAD[15] == ' ';
  }

  lemma InsideSwallowed(b: string, kv: string, rest: string, p: nat)
    requires p <= |b| + 1
    ensures (b + (Comment(kv) + rest))[p..|b| + |Comment(kv)| - 3] == (b + COMMENT_HEAD)[p..] + (kv + " ")
  {
    assert COMMENT_TAIL == " " + "-->";
    var w := (b + COMMENT_HEAD) + (kv + " ");
    assert b + (Comment(kv) + rest) == w + ("-->" + rest);
  }

  lemma RstripSpace(s: string)
    requires s != "" && !IsSpace(s[|s| - 1])
    ensures Rstrip(s + " ") == s
  {
    var t := s + " ";
    assert t[..|t| - 1] == s;
    assert Rstrip(s) == s;
  }

  lemma KvOfComment(kv: string, rest: string)
    requires NoGt(kv) && Trimmed(kv)
    ensures var x := Comment(kv) + rest; x[0] == '\n' && MarkerLength(x[1..]) > 0 && Kv(x[1..]) == kv
  {
    CommentMatches(kv, rest);
    CommentInner(kv, rest);
    BehindItsBreak(Comment(kv) + rest, |Comment(kv)|);
    StripSpace(kv);
  }

  lemma BehindItsBreak(x: string, n: nat)
    requires x != "" && x[0] == '\n' && 0 < n == MatchLength(x)
    ensures MarkerLength(x[1..]) == n - 1 > 0
  {
    assert MarkerLength(x) == 0;
  }

  lemma CommentInner(kv: string, rest: string)
    ensures var x := Comment(kv) + rest;
            |x| >= |Comment(kv)| >= 20 && x[0] == '\n' && x[1..][15..|Comment(kv)| - 4] == kv + " "
  {
    var x := Comment(kv) + rest;
    var n := |Comment(kv)|;
    assert COMMENT_TAIL == " " + "-->" && |COMMENT_HEAD| == 16 && |COMMENT_TAIL| == 4;
    Pieces(COMMENT_HEAD, kv, " ", "-->", rest);
    assert x[0] == COMMENT_HEAD[0];
    Middle(COMMENT_HEAD, kv + " ", "-->" + rest);
    Shifted(x, 15, n - 4);
  }

  lemma Pieces(a: string, b: string, c: string, d: string, e: string)
    ensures ((a + b) + (c + d)) + e == a + ((b + c) + (d + e))
  {
  }

  lemma Shifted(x: string, i: nat, j: nat)
    requires i <= j < |x|
    ensures x[1..][i..j] == x[i + 1..j + 1]
  {
  }

  lemma Middle(a: string, b: string, c: string)
    ensures (a + (b + c))[|a|..|a| + |b|] == b
  {
  }

  lemma StripSpace(kv: string)
    requires Trimmed(kv)
    ensures Strip(kv + " ") == kv
  {
    var s := kv + " ";
    if kv == "" {
      assert s[1..] == "";
      assert Lstrip(s) == "";
    } else {
      assert Lstrip(s) == s;
      assert s[..|s| - 1] == kv;
      assert Rstrip(kv) == kv;
    }
  }

  // ---------- reading what was built, whatever it was appended to ----------

  lemma {:induction false} WordRunStops(g: string, y: string)
    requires g != "" && Leads(g)
    ensures WordRun(g + y) == WordRun(g) < |g|
    decreases |g|
  {
    if IsWord(g[0]) {
      assert (g + y)[1..] == g[1..] + y;
      WordRunStops(g[1..], y);
    }
  }

  lemma {:induction false} ValueRunStops(g: string, y: string)
    requires g != "" && Leads(g)
    ensures ValueRun(g + y) == ValueRun(g) < |g|
    decreases |g|
  {
    if !IsSpace(g[0]) {
      assert (g + y)[1..] == g[1..] + y;
      ValueRunStops(g[1..], y);
    }
  }

  lemma TokenStops(g: string, y: string)
    requires g != "" && Leads(g)
    ensures TokenLength(g + y) == TokenLength(g) < |g|
    ensures WordRun(g + y) == WordRun(g)
  {
    WordRunStops(g, y);
    var w := WordRun(g);
    if 0 < w && g[w] == '=' {
      assert (g + y)[w + 1..] == g[w + 1..] + y;
      ValueRunStops(g[w + 1..], y);
    }
  }

  lemma SliceBefore(g: string, y: string, w: nat, n: nat)
    requires w < n <= |g|
    ensures (g + y)[n..] == g[n..] + y && (g + y)[..w] == g[..w] && (g + y)[w + 1..n] == g[w + 1..n]
  {
  }

  /** `m` says of every key of `t` what `t` says. */
  predicate Overrides(m: map<string, string>, t: map<string, string>) {
    forall k :: k in t ==> k in m && m[k] == t[k]
  }

  lemma OverridesMore(a: map<string, string>, m: map<string, string>, t: map<string, string>)
    requires Overrides(m, t)
    ensures Overrides(a + m, t)
  {
  }

  lemma TokensHit(g: string, y: string, w: nat, n: nat)
    requires g != "" && TokenLength(g + y) == n && WordRun(g + y) == w && w + 1 < n <= |g|
    requires Overrides(Tokens(g[n..] + y), Tokens(y))
    ensures Overrides(Tokens(g + y), Tokens(y))
  {
    SliceBefore(g, y, w, n);
    TokensUnfold(g + y, g[..w], g[w + 1..n], g[n..] + y);
    OverridesMore(map[g[..w] := g[w + 1..n]], Tokens(g[n..] + y), Tokens(y));
  }

  lemma TokensMiss(g: string, y: string)
    requires g != "" && TokenLength(g + y) == 0
    ensures Tokens(g + y) == Tokens(g[1..] + y)
  {
    SliceBefore(g, y, 0, 1);
  }

  /** No pair reaches across the white space at the end of the lead, so later pairs override it. */
  lemma {:induction false} TokensAfterLead(g: string, y: string)
    requires Leads(g)
    ensures Overrides(Tokens(g + y), Tokens(y))
    decreases |g|
  {
    if g == "" {
      assert g + y == y;
    } else {
      TokenStops(g, y);
      var n := TokenLength(g);
      if n > 0 {
        TokensAfterLead(g[n..], y);
        TokensHit(g, y, WordRun(g), n);
      } else {
        TokensAfterLead(g[1..], y);
        TokensMiss(g, y);
      }
    }
  }

  predicate HasFields(m: map<string, string>, conf: string, captured: string, reinforced: string) {
    && "conf" in m && "captured" in m && "reinforced" in m
    && m["conf"] == conf && m["captured"] == captured && m["reinforced"] == reinforced
  }

  lemma FieldsOfTrail(k: string, kv: string, conf: string, captured: string, reinforced: string)
    requires Trails(k, kv)
    requires Tokens(kv) == map["conf" := conf] + (map["captured" := captured] + map["reinforced" := reinforced])
    ensures HasFields(Tokens(k), conf, captured, reinforced)
  {
    var lead := k[..|k| - |kv|];
    assert k == lead + kv;
    TokensAfterLead(lead, kv);
  }

  /** The values of a comment are read back whatever text it was appended to. */
  lemma FieldsReadBack(b: string, conf: string, captured: string, reinforced: int, rest: string)
    requires IsValue(conf) && IsValue(captured) && LastKv(rest) == None
    ensures HasFields(ParseMeta(b + (BuildMeta(conf, captured, reinforced) + rest)), conf, captured, IntText(reinforced))
  {
    var kv := BuiltKv(conf, captured, reinforced);
    BuiltKvShape(conf, captured, reinforced);
    LastKvOfBuilt(b, kv, rest);
    TokensOfBuilt(conf, captured, reinforced);
    FieldsOfTrail(LastKv(b + (Comment(kv) + rest)).value, kv, conf, captured, IntText(reinforced));
  }

  /**
   * Parsing and stripping undo building: for every closed body the three values come back and so
   * does the body; a body that is not closed loses text.
   */
  lemma MetaRoundTrip(b: string, conf: string, captured: string, reinforced: int)
    requires IsValue(conf) && IsValue(captured)
    ensures StripMeta(b + BuildMeta(conf, captured, reinforced)) == b <==> Closed(b)
    ensures Closed(b) ==>
              ParseMeta(b + BuildMeta(conf, captured, reinforced))
              == map["conf" := conf] + (map["captured" := captured] + map["reinforced" := IntText(reinforced)])
  {
    var kv := BuiltKv(conf, captured, reinforced);
    BuiltKvShape(conf, captured, reinforced);
    StripBuilt(b, kv, "");
    assert Comment(kv) + "" == Comment(kv);
    if Closed(b) {
      LastKvOfBuilt(b, kv, "");
      TokensOfBuilt(conf, captured, reinforced);
    }
  }
}
