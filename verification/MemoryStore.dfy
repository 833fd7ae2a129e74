/** The memory store: a delimited text file whose entries are added, reinforced, pruned and replaced. */
module MemoryStore {
  import opened Common
  import opened Text
  import opened EntryFormat
  import opened Similarity

  // ---------- what the model does not look into ----------

  /**
   * Unicode folding, word extraction and calendar dates. `parseDate` is `date.fromisoformat` as a
   * day number, `isoDate` its inverse.
   */
  datatype Oracles = Oracles(fold: string -> string, words: string -> set<string>,
                             parseDate: string -> Option<int>, isoDate: int -> string)

  /** White space at the ends adds no word, nothing folds to nothing, and dates survive being written and read. */
  ghost predicate Lawful(o: Oracles) {
    o.fold("") == "" && (forall s :: EndsAddNoWord(o, s)) && (forall d :: DateSurvives(o, d))
  }

  predicate EndsAddNoWord(o: Oracles, s: string) { o.words(Strip(s)) == o.words(s) }

  predicate DateSurvives(o: Oracles, d: int) { IsValue(o.isoDate(d)) && o.parseDate(o.isoDate(d)) == Some(d) }

  // ---------- cleaning ----------

  predicate IsLineBreak(c: char) {
    || '\n' <= c <= '\r' || '\U{001C}' <= c <= '\U{001E}'
    || c == '\U{0085}' || c == '\U{2028}' || c == '\U{2029}'
  }

  /** `splitlines`, up to blank lines, which cleaning drops anyway. */
  function Lines(s: string): (ls: seq<string>)
    ensures |ls| >= 1
    ensures forall i, j :: 0 <= i < |ls| && 0 <= j < |ls[i]| ==> !IsLineBreak(ls[i][j])
  {
    if s == "" then [""]
    else
      var rest := Lines(s[1..]);
      if IsLineBreak(s[0]) then [""] + rest else [[s[0]] + rest[0]] + rest[1..]
  }

  /** Which stripped lines survive cleaning. */
  predicate Keeps(line: string) {
    line != "" && line[0] != '#' && !("(alpi will" <= line) && line != "\U{00A7}"
  }

  /** A line as cleaning leaves it. */
  predicate CleanLine(line: string) {
    Keeps(line) && Trimmed(line) && forall i :: 0 <= i < |line| ==> !IsLineBreak(line[i])
  }

  function KeptLines(ls: seq<string>): seq<string> {
    if ls == [] then []
    else (if Keeps(Strip(ls[0])) then [Strip(ls[0])] else []) + KeptLines(ls[1..])
  }

  function JoinLines(ls: seq<string>): string {
    if ls == [] then "" else if |ls| == 1 then ls[0] else ls[0] + ("\n" + JoinLines(ls[1..]))
  }

  /** `_clean_entry`; its last `strip` finds nothing to do, since kept lines are trimmed. */
  function Clean(content: string): string {
    JoinLines(KeptLines(Lines(content)))
  }

  lemma {:induction false} KeptLinesClean(ls: seq<string>)
    requires forall i, j :: 0 <= i < |ls| && 0 <= j < |ls[i]| ==> !IsLineBreak(ls[i][j])
    ensures forall i :: 0 <= i < |KeptLines(ls)| ==> CleanLine(KeptLines(ls)[i])
  {
    if ls != [] {
      KeptLinesClean(ls[1..]);
      StrippedLine(ls[0]);
    }
  }

  lemma StrippedLine(s: string)
    requires forall i :: 0 <= i < |s| ==> !IsLineBreak(s[i])
    ensures Keeps(Strip(s)) ==> CleanLine(Strip(s))
  {
    StripTrims(s);
    StripIsPart(s);
    var t := Strip(s);
    forall i | 0 <= i < |t| ensures !IsLineBreak(t[i]) {
      assert t[i] in t;
      assert t[i] in s;
    }
  }

  lemma StripIsPart(s: string)
    ensures forall c :: c in Strip(s) ==> c in s
  {
    LstripIsSuffix(s);
    var l := Lstrip(s);
    assert forall c :: c in l ==> c in s;
    assert Rstrip(l) <= l;
  }

  lemma {:induction false} LinesOne(s: string)
    requires forall i :: 0 <= i < |s| ==> !IsLineBreak(s[i])
    ensures Lines(s) == [s]
    decreases |s|
  {
    if s != "" {
      LinesOne(s[1..]);
      assert [s[0]] + s[1..] == s;
    }
  }

  lemma {:induction false} LinesTwo(s: string, t: string)
    requires forall i :: 0 <= i < |s| ==> !IsLineBreak(s[i])
    ensures Lines(s + ("\n" + t)) == [s] + Lines(t)
    decreases |s|
  {
    var whole := s + ("\n" + t);
    if s == "" {
      assert whole == "\n" + t;
      assert whole[1..] == t;
    } else {
      LinesTwo(s[1..], t);
      assert whole[1..] == s[1..] + ("\n" + t);
      assert [s[0]] + s[1..] == s;
    }
  }

  lemma {:induction false} LinesOfJoin(ls: seq<string>)
    requires ls != [] && forall i :: 0 <= i < |ls| ==> CleanLine(ls[i])
    ensures Lines(JoinLines(ls)) == ls
    decreases |ls|
  {
    if |ls| == 1 {
      LinesOne(ls[0]);
    } else {
      assert CleanLine(ls[0]);
      CleanTail(ls);
      LinesOfJoin(ls[1..]);
      LinesTwo(ls[0], JoinLines(ls[1..]));
      assert [ls[0]] + ls[1..] == ls;
    }
  }

  lemma CleanTail(ls: seq<string>)
    requires ls != [] && forall i :: 0 <= i < |ls| ==> CleanLine(ls[i])
    ensures forall i :: 0 <= i < |ls[1..]| ==> CleanLine(ls[1..][i])
  {
    forall i | 0 <= i < |ls[1..]| ensures CleanLine(ls[1..][i]) {
      assert ls[1..][i] == ls[i + 1];
    }
  }

  lemma {:induction false} KeepAll(ls: seq<string>)
    requires forall i :: 0 <= i < |ls| ==> CleanLine(ls[i])
    ensures KeptLines(ls) == ls
    decreases |ls|
  {
    if ls != [] {
      KeepAll(ls[1..]);
      StripTrims(ls[0]);
      assert ls == [ls[0]] + ls[1..];
    }
  }

  /** A content made of clean lines is kept whole. */
  lemma CleanKeeps(ls: seq<string>)
    requires ls != [] && forall i :: 0 <= i < |ls| ==> CleanLine(ls[i])
    ensures Clean(JoinLines(ls)) == JoinLines(ls)
  {
    LinesOfJoin(ls);
    KeepAll(ls);
  }

  /** Cleaning twice is cleaning once. */
  lemma CleanTwice(content: string)
    ensures Clean(Clean(content)) == Clean(content)
  {
    var ls := KeptLines(Lines(content));
    KeptLinesClean(Lines(content));
    if ls == [] {
      NothingToClean();
    } else {
      CleanKeeps(ls);
    }
  }

  lemma NothingToClean()
    ensures Clean("") == ""
  {
    assert Strip("") == "";
    assert [""][1..] == [];
    assert KeptLines([""]) == [];
  }

  /** A line worth keeping: not empty, no heading, no seed text, and no section sign alone. */
  predicate Worth(line: string) {
    line != "" && !("#" <= line) && !("(alpi will" <= line) && line != "\U{00A7}"
  }

  /** What cleaning leaves are exactly the stripped lines of the content that are worth keeping. */
  lemma CleanedLines(content: string, line: string)
    requires Clean(content) != ""
    ensures line in Lines(Clean(content)) <==> Worth(line) && exists raw :: raw in Lines(content) && Strip(raw) == line
  {
    var ls := KeptLines(Lines(content));
    KeptLinesClean(Lines(content));
    assert ls != [];
    LinesOfJoin(ls);
    KeptSpec(Lines(content), line);
  }

  lemma {:induction false} KeptSpec(ls: seq<string>, line: string)
    ensures line in KeptLines(ls) <==> Worth(line) && exists raw :: raw in ls && Strip(raw) == line
    decreases |ls|
  {
    if ls != [] {
      KeptSpec(ls[1..], line);
      WorthKeeps(Strip(ls[0]));
      assert forall raw :: raw in ls <==> raw == ls[0] || raw in ls[1..];
    }
  }

  lemma WorthKeeps(line: string)
    ensures Keeps(line) <==> Worth(line)
  {
    assert "#" <= line <==> line != "" && line[0] == '#';
  }

  /** A cleaned entry is trimmed and never contains the delimiter, nor completes one. */
  lemma CleanedIsSolid(content: string)
    ensures Trimmed(Clean(content)) && Solid(Clean(content))
  {
    KeptLinesClean(Lines(content));
    JoinedIsSolid(KeptLines(Lines(content)));
  }

  lemma {:induction false} JoinedIsSolid(ls: seq<string>)
    requires forall i :: 0 <= i < |ls| ==> CleanLine(ls[i])
    ensures Trimmed(JoinLines(ls)) && Solid(JoinLines(ls))
    ensures ls != [] ==> JoinLines(ls) != "" && ls[0] <= JoinLines(ls)
    ensures ls != [] && |JoinLines(ls)| > |ls[0]| ==> JoinLines(ls)[|ls[0]|] == '\n'
  {
    var mark := "\n\U{00A7}";
    if ls == [] {
      assert JoinLines(ls) + mark == mark;
      assert DelimFree(mark[1..]);
    } else if |ls| == 1 {
      LineThen(ls[0], mark);
      assert DelimFree(mark[1..]);
    } else {
      JoinedIsSolid(ls[1..]);
      var rest := JoinLines(ls[1..]);
      var tail := ("\n" + rest) + mark;
      assert tail[1..] == rest + mark;
      assert !(DELIMITER <= tail) by {
        NoDelimiterAtLine(ls[1], tail);
      }
      LineThen(ls[0], tail);
      assert ls[0] + tail == JoinLines(ls) + mark;
      assert JoinLines(ls)[|JoinLines(ls)| - 1] == rest[|rest| - 1];
    }
  }

  /** A line break before a kept line does not start a delimiter. */
  lemma NoDelimiterAtLine(line: string, tail: string)
    requires CleanLine(line) && |tail| > |line| + 1
    requires tail[0] == '\n' && tail[1..|line| + 1] == line
    ensures !(DELIMITER <= tail)
  {
    assert tail[1] == line[0];
    if |line| == 1 {
      assert line == [line[0]];
    } else {
      assert tail[2] == line[1];
    }
  }

  lemma {:induction false} LineThen(line: string, tail: string)
    requires forall i :: 0 <= i < |line| ==> line[i] != '\n'
    requires DelimFree(tail)
    ensures DelimFree(line + tail)
    decreases |line|
  {
    if line == "" {
      assert line + tail == tail;
    } else {
      assert (line + tail)[1..] == line[1..] + tail;
      assert DELIMITER[0] == '\n';
      LineThen(line[1..], tail);
    }
  }

  // ---------- deduplication ----------

  predicate IsPunctuation(c: char) { c in ".!?,;: " }

  function RstripPunctuation(s: string): string {
    if s != "" && IsPunctuation(s[|s| - 1]) then RstripPunctuation(s[..|s| - 1]) else s
  }

  /** `_normalize_for_dedup` and `_content_tokens` of a stripped body. */
  function ProfileOf(o: Oracles, body: string): Profile {
    Profile(o.fold(Essence(body)), o.words(body))
  }

  /** What is left of a text for comparison: no surrounding space, no final punctuation. */
  function Essence(s: string): string {
    RstripPunctuation(Strip(s))
  }

  /** What is compared is the stripped text without the full stops, marks, commas, colons and spaces at its end. */
  lemma EssenceIs(s: string)
    ensures var e, t := Essence(s), Strip(s);
            && e <= t && (forall i :: |e| <= i < |t| ==> t[i] in {'.', '!', '?', ',', ';', ':', ' '})
            && (e != "" ==> e[|e| - 1] !in {'.', '!', '?', ',', ';', ':', ' '})
  {
    PunctuationGoes(Strip(s));
  }

  lemma {:induction false} PunctuationGoes(s: string)
    ensures var e := RstripPunctuation(s);
            && e <= s && (forall i :: |e| <= i < |s| ==> s[i] in {'.', '!', '?', ',', ';', ':', ' '})
            && (e != "" ==> e[|e| - 1] !in {'.', '!', '?', ',', ';', ':', ' '})
    decreases |s|
  {
    if s != "" {
      PunctuationIs(s[|s| - 1]);
      if IsPunctuation(s[|s| - 1]) { PunctuationGoes(s[..|s| - 1]); }
    }
  }

  lemma PunctuationIs(c: char)
    ensures IsPunctuation(c) <==> c in {'.', '!', '?', ',', ';', ':', ' '}
  {
    var marks := ".!?,;: ";
    assert marks[0] == '.' && marks[1] == '!' && marks[2] == '?' && marks[3] == ',';
    assert marks[4] == ';' && marks[5] == ':' && marks[6] == ' ';
    assert forall i :: 0 <= i < |marks| ==> marks[i] in {'.', '!', '?', ',', ';', ':', ' '};
  }

  /** Deduplication and the audit see nothing in such a text. */
  predicate Blank(s: string) { Essence(s) == "" }

  lemma ProfileIgnoresEnds(o: Oracles, a: string, b: string)
    requires Lawful(o) && Strip(a) == Strip(b)
    ensures ProfileOf(o, a) == ProfileOf(o, b)
  {
    assert EndsAddNoWord(o, a) && EndsAddNoWord(o, b);
  }

  lemma {:induction false} StripFinalSpace(s: string, c: char)
    requires IsSpace(c)
    ensures Strip(s + [c]) == Strip(s)
    decreases |s|
  {
    var t := s + [c];
    if s == "" {
      assert t[1..] == "";
      assert Lstrip(t) == "";
    } else if IsSpace(s[0]) {
      assert t[1..] == s[1..] + [c];
      StripFinalSpace(s[1..], c);
    } else {
      assert Lstrip(t) == t;
      assert t[..|t| - 1] == s;
      assert Rstrip(t) == Rstrip(s);
    }
  }

  lemma {:induction false} StripFinalBreaks(s: string)
    ensures Strip(RstripNewlines(s)) == Strip(s)
    decreases |s|
  {
    if s != "" && s[|s| - 1] == '\n' {
      var t := s[..|s| - 1];
      StripFinalBreaks(t);
      StripFinalSpace(t, '\n');
      assert s == t + ['\n'];
    }
  }

  /** The profiles of the visible bodies of some entry texts. */
  function Profiles(o: Oracles, parts: seq<string>): (ps: seq<Profile>)
    ensures |ps| == |parts|
  {
    seq(|parts|, i requires 0 <= i < |parts| => ProfileOf(o, StripMeta(parts[i])))
  }

  /** The first profile similar to the needle at the live threshold. */
  function FirstSimilar(needle: Profile, ps: seq<Profile>): Option<nat> {
    if ps == [] then None
    else if Similar(needle, ps[0], DEDUP_THRESHOLD) then Some(0)
    else match FirstSimilar(needle, ps[1..])
      case None => None
      case Some(i) => Some(i + 1)
  }

  lemma {:induction false} FirstSimilarSpec(needle: Profile, ps: seq<Profile>, i: nat)
    requires i <= |ps|
    requires forall j :: 0 <= j < i ==> !Similar(needle, ps[j], DEDUP_THRESHOLD)
    ensures i == |ps| ==> FirstSimilar(needle, ps) == None
    ensures i < |ps| && Similar(needle, ps[i], DEDUP_THRESHOLD) ==> FirstSimilar(needle, ps) == Some(i)
    decreases i
  {
    if i > 0 {
      FirstSimilarSpec(needle, ps[1..], i - 1);
    }
  }

  /**
   * Two contents are the same entry when one normal form holds the other, or when each has two words or
   * more and at least seven in ten of the words of the shorter one are shared; nothing is the same as a blank.
   */
  lemma SameMeans(a: Profile, b: Profile)
    ensures var shared, fewer := |a.tokens * b.tokens|, if |a.tokens| < |b.tokens| then |a.tokens| else |b.tokens|;
            Similar(a, b, DEDUP_THRESHOLD) <==>
              && a.norm != "" && b.norm != ""
              && (Contains(a.norm, b.norm) || Contains(b.norm, a.norm) || (fewer >= 2 && 10 * shared >= 7 * fewer))
  {
    var shared, fewer := |a.tokens * b.tokens|, if |a.tokens| < |b.tokens| then |a.tokens| else |b.tokens|;
    if fewer >= 2 { TenthsAreRatio(shared, fewer); }
    if a.norm == b.norm { assert OccursAt(a.norm, b.norm, 0); }
  }

  lemma TenthsAreRatio(shared: nat, fewer: nat)
    requires fewer >= 2
    ensures shared as real / fewer as real >= 0.7 <==> 10 * shared >= 7 * fewer
  {
    var r := shared as real / fewer as real;
    assert r * fewer as real == shared as real;
    if r >= 0.7 { assert r * fewer as real >= 0.7 * fewer as real; }
    if r < 0.7 { assert r * fewer as real < 0.7 * fewer as real; }
  }

  /** What `_find_duplicate_index` answers; an entry that normalises to nothing duplicates the first. */
  function DuplicateIndex(o: Oracles, existing: string, newEntry: string): Option<nat> {
    var needle := ProfileOf(o, StripMeta(newEntry));
    if needle.norm == "" then Some(0) else FirstSimilar(needle, Profiles(o, SplitEntries(existing)))
  }

  /** The test of the dedup loop, branch by branch. */
  method SameEntry(needle: Profile, p: Profile) returns (same: bool)
    requires needle.norm != ""
    ensures same == Similar(needle, p, DEDUP_THRESHOLD)
  {
    if p.norm == "" {
      return false;
    }
    if needle.norm == p.norm || Contains(p.norm, needle.norm) || Contains(needle.norm, p.norm) {
      return true;
    }
    same := false;
    if needle.tokens != {} && p.tokens != {} {
      var overlap := |needle.tokens * p.tokens|;
      var smaller := if |needle.tokens| < |p.tokens| then |needle.tokens| else |p.tokens|;
      same := smaller >= 2 && overlap as real / smaller as real >= DEDUP_THRESHOLD;
    }
  }

  /** `_find_duplicate_index` */
  method FindDuplicateIndex(o: Oracles, existing: string, newEntry: string) returns (r: Option<nat>)
    ensures r == DuplicateIndex(o, existing, newEntry)
  {
    var needle := ProfileOf(o, StripMeta(newEntry));
    if needle.norm == "" {
      return Some(0);
    }
    r := FirstInLoop(needle, Profiles(o, SplitEntries(existing)));
  }

  method FirstInLoop(needle: Profile, ps: seq<Profile>) returns (r: Option<nat>)
    requires needle.norm != ""
    ensures r == FirstSimilar(needle, ps)
  {
    for i := 0 to |ps|
      invariant forall j :: 0 <= j < i ==> !Similar(needle, ps[j], DEDUP_THRESHOLD)
    {
      FirstSimilarSpec(needle, ps, i);
      var same := SameEntry(needle, ps[i]);
      if same {
        return Some(i);
      }
    }
    FirstSimilarSpec(needle, ps, |ps|);
    r := None;
  }

  // ---------- reinforcement and expiry ----------

  function RstripNewlines(s: string): (r: string)
    ensures r <= s
    ensures r == "" || r[|r| - 1] != '\n'
  {
    if s != "" && s[|s| - 1] == '\n' then RstripNewlines(s[..|s| - 1]) else s
  }

  const DEFAULT_CONFIDENCE := "normal"

  function Get(m: map<string, string>, k: string, default: string): string {
    if k in m then m[k] else default
  }

  /** `_bump_entry`; `None` where the source raises on hand-edited metadata. */
  function BumpEntry(o: Oracles, entry: string, today: int): Option<string> {
    var meta := ParseMeta(entry);
    Bump(o, RstripNewlines(StripMeta(entry)), Get(meta, "conf", DEFAULT_CONFIDENCE),
         ParseInt(Get(meta, "reinforced", "0")),
         if "captured" in meta then o.parseDate(meta["captured"]) else Some(today))
  }

  function Bump(o: Oracles, body: string, conf: string, reinforced: Option<int>, captured: Option<int>): Option<string> {
    if reinforced.None? || captured.None? then None
    else
      var n := reinforced.value + 1;
      Some(body + BuildMeta(if conf == "low" && n >= 2 then "normal" else conf, o.isoDate(captured.value), n))
  }

  /** `_reinforce_at` */
  function ReinforceAt(o: Oracles, text: string, i: nat, today: int): Option<string> {
    var parts := SplitEntries(text);
    if i >= |parts| then Some(text)
    else match BumpEntry(o, parts[i], today)
      case None => None
      case Some(entry) => Some(Join(parts[i := entry]))
  }

  /** `_should_prune`; `None` where the source raises. */
  function ShouldPrune(o: Oracles, entry: string, today: int, maxAge: int): Option<bool> {
    var meta := ParseMeta(entry);
    if meta == map[] then Some(false)
    else if Get(meta, "conf", "") != "low" then Some(false)
    else match ParseInt(Get(meta, "reinforced", "0"))
      case None => None
      case Some(n) =>
        if n > 0 then Some(false)
        else if "captured" !in meta then Some(false)
        else match o.parseDate(meta["captured"])
          case None => Some(false)
          case Some(d) => Some(today - d >= maxAge)
  }

  /**
   * Any entry, however it was written: it goes exactly when it is marked low, was never reinforced and is at
   * least that old by a date that reads; the check raises exactly when a low entry's count is no number.
   */
  lemma PruneTest(o: Oracles, entry: string, today: int, maxAge: int)
    ensures var m := ParseMeta(entry);
            var low, counted := "conf" in m && m["conf"] == "low", "reinforced" in m;
            && (ShouldPrune(o, entry, today, maxAge) == None <==> low && counted && ParseInt(m["reinforced"]) == None)
            && (ShouldPrune(o, entry, today, maxAge) == Some(true) <==>
                  && low && (counted ==> ParseInt(m["reinforced"]).Some? && ParseInt(m["reinforced"]).value <= 0)
                  && "captured" in m && o.parseDate(m["captured"]).Some?
                  && today >= o.parseDate(m["captured"]).value + maxAge)
  {
    assert ParseInt("0") == Some(0) by { ParseIntRoundTrip(0); }
  }

  // ---------- whole-file operations ----------

  datatype AddResult = Added | Reinforced | Refused

  predicate IsConfidence(conf: string) { conf == "low" || conf == "normal" || conf == "high" }

  /** The file with one more entry block at its end. */
  function Appended(current: string, block: string): string {
    if Strip(current) != "" then Rstrip(current) + (DELIMITER + block) else block
  }

  /** The new file text and the action, as `add` computes them. */
  function AddText(o: Oracles, limit: nat, text: string, content: string, conf: string, today: int): (string, AddResult) {
    AddCleaned(o, limit, text, Clean(content), conf, today)
  }

  function AddCleaned(o: Oracles, limit: nat, text: string, cleaned: string, conf: string, today: int): (string, AddResult) {
    if cleaned == "" || !IsConfidence(conf) then (text, Refused)
    else AddChosen(o, limit, text, DuplicateIndex(o, text, cleaned), NewBlock(o, cleaned, conf, today), today)
  }

  function AddChosen(o: Oracles, limit: nat, text: string, dup: Option<nat>, block: string, today: int): (string, AddResult) {
    match dup
    case Some(i) => ReinforceText(o, text, i, today)
    case None => AppendText(limit, text, block)
  }

  function ReinforceText(o: Oracles, text: string, i: nat, today: int): (string, AddResult) {
    match ReinforceAt(o, text, i, today)
    case None => (text, Refused)
    case Some(t) => (t, Reinforced)
  }

  function AppendText(limit: nat, text: string, block: string): (string, AddResult) {
    var t := Appended(text, block);
    if |StripMeta(t)| > limit then (text, Refused) else (t, Added)
  }

  function NewBlock(o: Oracles, cleaned: string, conf: string, today: int): string {
    cleaned + BuildMeta(conf, o.isoDate(today), 0) + "\n"
  }

  /**
   * An add is refused exactly when nothing is left of the content, the confidence is not one of the three,
   * the entry it duplicates cannot be read, or the visible text would not fit.
   */
  lemma AddRefused(o: Oracles, limit: nat, text: string, content: string, conf: string, today: int)
    ensures var r, cleaned := AddText(o, limit, text, content, conf, today), Clean(content);
            var dup := DuplicateIndex(o, text, cleaned);
            && (r.1 == Refused ==> r.0 == text)
            && (r.1 == Refused <==>
                  || cleaned == "" || conf !in {"low", "normal", "high"}
                  || (dup.Some? && ReinforceAt(o, text, dup.value, today) == None)
                  || (dup == None && |StripMeta(Appended(text, NewBlock(o, cleaned, conf, today)))| > limit))
            && (r.1 == Reinforced ==> dup.Some? && Some(r.0) == ReinforceAt(o, text, dup.value, today))
            && (r.1 == Added ==> dup == None && r.0 == Appended(text, NewBlock(o, cleaned, conf, today)))
  {
    assert conf in {"low", "normal", "high"} <==> IsConfidence(conf);
  }

  /** The entries a prune keeps; `None` when one of the checks raises. */
  function KeepParts(o: Oracles, parts: seq<string>, today: int, maxAge: int): Option<seq<string>> {
    if parts == [] then Some([])
    else
      var init := KeepParts(o, parts[..|parts| - 1], today, maxAge);
      if init.None? then None
      else match ShouldPrune(o, parts[|parts| - 1], today, maxAge)
        case None => None
        case Some(true) => init
        case Some(false) => Some(init.value + [parts[|parts| - 1]])
  }

  /** The new file text, as the prune computes it. */
  function PruneText(o: Oracles, text: string, today: int, maxAge: int): string {
    if maxAge <= 0 || Strip(text) == "" then text
    else
      var parts := SplitEntries(text);
      match KeepParts(o, parts, today, maxAge)
      case None => text
      case Some(kept) =>
        if |kept| == |parts| then text
        else
          var t := Strip(Join(kept));
          if t != "" then t + "\n" else t
  }

  /** The new file text and whether it was written, as `replace` computes them. */
  function ReplaceText(limit: nat, rev: string -> string, text: string, new_: string, expected: Option<string>): (string, bool) {
    if |StripMeta(new_)| > limit then (text, false)
    else if expected.Some? && rev(text) != expected.value then (text, false)
    else (new_, true)
  }

  /** The prune loop over the entries. */
  method Keep(o: Oracles, parts: seq<string>, today: int, maxAge: int) returns (r: Option<seq<string>>)
    ensures r == KeepParts(o, parts, today, maxAge)
  {
    var kept: seq<string> := [];
    for i := 0 to |parts|
      invariant KeepParts(o, parts[..i], today, maxAge) == Some(kept)
    {
      assert parts[..i + 1][..i] == parts[..i];
      var drop := ShouldPrune(o, parts[i], today, maxAge);
      if drop.None? {
        KeepPartsRaises(o, parts, today, maxAge, i);
        return None;
      }
      if !drop.value {
        kept := kept + [parts[i]];
      }
    }
    assert parts[..|parts|] == parts;
    r := Some(kept);
  }

  lemma {:induction false} KeepIsShorter(o: Oracles, parts: seq<string>, today: int, maxAge: int)
    ensures KeepParts(o, parts, today, maxAge).Some? ==> |KeepParts(o, parts, today, maxAge).value| <= |parts|
  {
    if parts != [] { KeepIsShorter(o, parts[..|parts| - 1], today, maxAge); }
  }

  /** One capped memory file. `rev` stands for the revision hash. */
  class MemoryFile {
    const o: Oracles
    const limit: nat
    const rev: string -> string
    var text: string

    constructor (o: Oracles, limit: nat, rev: string -> string)
      ensures this.o == o && this.limit == limit && this.rev == rev && text == ""
    {
      this.o, this.limit, this.rev, text := o, limit, rev, "";
    }

    /** Appends an entry, or reinforces the one it duplicates. */
    method Add(content: string, conf: string, today: int) returns (r: AddResult)
      modifies this
      ensures (text, r) == AddText(o, limit, old(text), content, conf, today)
    {
      var cleaned := Clean(content);
      if cleaned == "" || !IsConfidence(conf) {
        return Refused;
      }
      var dup := FindDuplicateIndex(o, text, cleaned);
      if dup.Some? {
        r := Reinforce(dup.value, today);
      } else {
        r := Append(NewBlock(o, cleaned, conf, today));
      }
    }

    method Reinforce(i: nat, today: int) returns (r: AddResult)
      modifies this
      ensures (text, r) == ReinforceText(o, old(text), i, today)
    {
      var rewritten := ReinforceAt(o, text, i, today);
      if rewritten.None? {
        return Refused;
      }
      text := rewritten.value;
      r := Reinforced;
    }

    /** Appends a block unless the visible text would exceed the limit. */
    method Append(block: string) returns (r: AddResult)
      modifies this
      ensures (text, r) == AppendText(limit, old(text), block)
      ensures r == Added ==> |StripMeta(text)| <= limit
    {
      var t := Appended(text, block);
      if |StripMeta(t)| > limit {
        return Refused;
      }
      text := t;
      r := Added;
    }

    /** Drops stale low-confidence entries; a raising check leaves the file alone. */
    method Prune(today: int, maxAge: int) returns (removed: nat)
      modifies this
      ensures text == PruneText(o, old(text), today, maxAge)
      ensures removed == 0 || maxAge <= 0 ==> text == old(text)
      ensures maxAge > 0 && Strip(old(text)) != "" ==>
                match KeepParts(o, SplitEntries(old(text)), today, maxAge)
                case None => removed == 0
                case Some(kept) => removed == |SplitEntries(old(text))| - |kept|
    {
      removed := 0;
      if maxAge <= 0 || Strip(text) == "" {
        return;
      }
      var parts := SplitEntries(text);
      var kept := Keep(o, parts, today, maxAge);
      if kept.None? || |kept.value| == |parts| {
        return;
      }
      text := Strip(Join(kept.value));
      if text != "" {
        text := text + "\n";
      }
      KeepIsShorter(o, parts, today, maxAge);
      removed := |parts| - |kept.value|;
    }

    /** Applies an arbitrary edit under the lock, unless the result would exceed the limit. */
    method Mutate(fn: string -> string) returns (ok: bool)
      modifies this
      ensures ok <==> |StripMeta(fn(old(text)))| <= limit
      ensures text == if ok then fn(old(text)) else old(text)
    {
      var new_ := fn(text);
      ok := |StripMeta(new_)| <= limit;
      if ok {
        text := new_;
      }
    }

    /** Overwrites the file, if it is within the limit and still at the revision expected. */
    method Replace(new_: string, expected: Option<string>) returns (ok: bool)
      modifies this
      ensures ok <==> |StripMeta(new_)| <= limit && (expected == None || expected == Some(rev(old(text))))
      ensures text == if ok then new_ else old(text)
      ensures (text, ok) == ReplaceText(limit, rev, old(text), new_, expected)
    {
      if |StripMeta(new_)| > limit {
        return false;
      }
      if expected.Some? && rev(text) != expected.value {
        return false;
      }
      text := new_;
      ok := true;
    }
  }

  lemma {:induction false} KeepPartsRaises(o: Oracles, parts: seq<string>, today: int, maxAge: int, i: nat)
    requires i < |parts| && ShouldPrune(o, parts[i], today, maxAge) == None
    ensures KeepParts(o, parts, today, maxAge) == None
    decreases |parts|
  {
    if i < |parts| - 1 {
      KeepPartsRaises(o, parts[..|parts| - 1], today, maxAge, i);
    }
  }
}
