/**
 * What the memory store keeps over whole runs: live deduplication agrees with the audit, a
 * reinforced entry is never pruned, a capped file never grows past its cap.
 */
module MemoryRuns {
  import opened Common
  import opened Text
  import opened EntryFormat
  import opened Similarity
  import opened MemoryStore
  import opened MemoryEntries
  import MemoryAudit

  // ---------- runs ----------

  /** One step on a capped file; a write is what `mutate` or `replace` comes to once let through. */
  datatype Op = AddOp(content: string, conf: string, today: int) | PruneOp(day: int, maxAge: int) | WriteOp(new_: string)

  function StepText(o: Oracles, limit: nat, text: string, op: Op): string {
    match op
    case AddOp(content, conf, today) => AddText(o, limit, text, content, conf, today).0
    case PruneOp(day, maxAge) => PruneText(o, text, day, maxAge)
    case WriteOp(new_) => if |StripMeta(new_)| <= limit then new_ else text
  }

  function RunText(o: Oracles, limit: nat, text: string, ops: seq<Op>): string {
    if ops == [] then text else StepText(o, limit, RunText(o, limit, text, ops[..|ops| - 1]), ops[|ops| - 1])
  }

  /** The text is a list of entries the format carries. */
  ghost predicate WellFormed(o: Oracles, text: string) {
    exists es :: Holds(o, text, es) && AllSound(es)
  }

  /** Added contents keep to one piece, and written texts are well formed. */
  ghost predicate Faithful(o: Oracles, op: Op) {
    match op
    case AddOp(content, _, _) => Carried(o, Clean(content))
    case PruneOp(_, _) => true
    case WriteOp(new_) => WellFormed(o, new_)
  }

  predicate AddsOrPrunes(op: Op) { !op.WriteOp? }

  /** `es'` is what an add or prune makes of `es`; a refused add makes nothing of it. */
  ghost predicate Becomes(o: Oracles, es: seq<Entry>, op: Op, es': seq<Entry>) {
    match op
    case AddOp(content, conf, today) => es' == es || es' == AddEntries(o, es, Clean(content), conf, today)
    case PruneOp(day, maxAge) => es' == PruneEntries(es, day, maxAge)
    case WriteOp(_) => true
  }

  /** Every step on the text is a step on the list. */
  lemma StepHolds(o: Oracles, limit: nat, text: string, es: seq<Entry>, op: Op) returns (es': seq<Entry>)
    requires Lawful(o) && Holds(o, text, es) && AllSound(es) && Faithful(o, op)
    ensures Holds(o, StepText(o, limit, text, op), es') && AllSound(es') && Becomes(o, es, op, es')
  {
    match op
    case AddOp(content, conf, today) =>
      AddHolds(o, limit, text, es, content, conf, today);
      var r := AddText(o, limit, text, content, conf, today);
      es' := if r.1 == Refused then es else AddEntries(o, es, Clean(content), conf, today);
    case PruneOp(day, maxAge) =>
      PruneHolds(o, text, es, day, maxAge);
      es' := PruneEntries(es, day, maxAge);
    case WriteOp(new_) =>
      if |StripMeta(new_)| <= limit {
        es' :| Holds(o, new_, es') && AllSound(es');
      } else {
        es' := es;
      }
  }

  // ---------- contents that stay what they are ----------

  /**
   * Stripped once, the content shows no reader anything but what deduplication compared; or it shows
   * nothing once it is stored, or nothing once it is reinforced.
   */
  predicate Stable(c: string) {
    || Blank(StripMeta(c))
    || Blank(Shown(c))
    || (Shown(c) == StripMeta(c) && Solid(Next(c)) && (Closed(Next(c)) || Blank(Shown(Next(c)))))
  }

  /** What an entry's text shows does not change by reinforcing it, unless it vanishes. */
  predicate Lasting(t: string) {
    Blank(Shown(t)) || Closed(Next(t)) || Blank(Shown(Next(t)))
  }

  predicate AllLasting(es: seq<Entry>) {
    forall i :: 0 <= i < |es| ==> Lasting(es[i].text)
  }

  predicate IsPad(c: char) { IsSpace(c) || IsPunctuation(c) }

  predicate AllPad(s: string) { forall i :: 0 <= i < |s| ==> IsPad(s[i]) }

  lemma PadSnoc(s: string)
    requires s != "" && AllPad(s[..|s| - 1]) && IsPad(s[|s| - 1])
    ensures AllPad(s)
  {
    assert forall i :: 0 <= i < |s| - 1 ==> s[i] == s[..|s| - 1][i];
  }

  lemma PadCons(s: string)
    requires s != "" && AllPad(s[1..]) && IsPad(s[0])
    ensures AllPad(s)
  {
    assert forall i :: 1 <= i < |s| ==> s[i] == s[1..][i - 1];
  }

  lemma {:induction false} EssenceIsEmpty(s: string)
    requires RstripPunctuation(s) == ""
    ensures AllPad(s)
    decreases |s|
  {
    if s != "" {
      EssenceIsEmpty(s[..|s| - 1]);
      PadSnoc(s);
    }
  }

  lemma {:induction false} RstripDropsSpace(s: string)
    requires AllPad(Rstrip(s))
    ensures AllPad(s)
    decreases |s|
  {
    if s != "" && IsSpace(s[|s| - 1]) {
      RstripDropsSpace(s[..|s| - 1]);
      PadSnoc(s);
    }
  }

  lemma {:induction false} LstripDropsSpace(s: string)
    requires AllPad(Lstrip(s))
    ensures AllPad(s)
    decreases |s|
  {
    if s != "" && IsSpace(s[0]) {
      LstripDropsSpace(s[1..]);
      PadCons(s);
    }
  }

  predicate NoMark(s: string) { forall i :: 0 <= i < |s| ==> s[i] != '<' && s[i] != '\U{00A7}' }

  lemma BlankHasNoMark(s: string)
    requires Blank(s)
    ensures NoMark(s)
  {
    EssenceIsEmpty(Strip(s));
    RstripDropsSpace(Lstrip(s));
    LstripDropsSpace(s);
  }

  /** Without section sign or angle bracket nothing is ever stripped or split. */
  lemma {:induction false} NoMarkIsPlain(s: string)
    requires NoMark(s)
    ensures Closed(s) && DelimFree(s + "\n\U{00A7}")
    decreases |s|
  {
    var mark := s + "\n\U{00A7}";
    if s == "" {
      assert mark[1..] == "\U{00A7}";
      assert mark[1..][1..] == "";
    } else {
      NoMarkIsPlain(s[1..]);
      assert mark[1..] == s[1..] + "\n\U{00A7}";
      assert |s| > 1 ==> mark[1] == s[1];
      assert s[0] != '<' && (s + "\n-->")[0] == s[0] && (|s| > 1 ==> (s + "\n-->")[1] == s[1]);
    }
  }

  lemma BlankIsPlain(s: string)
    requires Blank(s)
    ensures Closed(s) && Solid(s) && Whole(s)
  {
    BlankHasNoMark(s);
    NoMarkIsPlain(s);
  }

  lemma StableIsCarried(o: Oracles, c: string)
    requires Lawful(o) && Stable(c) && Solid(c)
    ensures Carried(o, c)
    ensures Needle(o, c).norm != "" ==> Lasting(c)
  {
    StripFinalBreaks(Shown(c));
    StripFinalBreaks(Shown(Next(c)));
    if Blank(Shown(c)) {
      BlankIsPlain(Next(c));
    } else if !Blank(StripMeta(c)) && !Closed(Next(c)) {
      BlankIsPlain(Next(Next(c)));
    }
  }

  // ---------- no two entries alike ----------

  predicate Apart(ps: seq<Profile>) {
    forall i, j :: 0 <= i < j < |ps| ==> !Similar(ps[i], ps[j], DEDUP_THRESHOLD)
  }

  lemma AddStaysApart(o: Oracles, es: seq<Entry>, cleaned: string, conf: string, today: int)
    requires Lawful(o) && Apart(EntryProfiles(o, es)) && AllLasting(es)
    requires Stable(cleaned) && EndsInText(cleaned)
    ensures Apart(EntryProfiles(o, AddEntries(o, es, cleaned, conf, today)))
    ensures AllLasting(AddEntries(o, es, cleaned, conf, today))
  {
    var needle := Needle(o, cleaned);
    if needle.norm != "" {
      FoundStaysApart(o, es, needle, cleaned, conf, today);
    } else if es == [] {
      EmptyShowsNothing();
    } else {
      BumpStaysApart(o, es, 0, today);
    }
  }

  lemma EmptyShowsNothing()
    ensures Shown("") == "" && Blank("")
  {
    assert Strip("") == "";
  }

  /** A reinforced entry shows what it showed, or nothing from then on. */
  lemma BumpShows(o: Oracles, t: string)
    requires Lawful(o) && Lasting(t)
    ensures ProfileOf(o, Shown(Next(t))) == ProfileOf(o, Shown(t)) || Blank(Shown(Next(t)))
    ensures Lasting(Next(t))
  {
    StripFinalBreaks(Shown(t));
    if Blank(Shown(t)) { BlankIsPlain(Next(t)); }
    ShownClosed(Next(t));
    if Closed(Next(t)) {
      assert RstripNewlines(Next(t)) == Next(t);
      ProfileIgnoresEnds(o, Next(t), Shown(t));
    }
  }

  lemma BumpStaysApart(o: Oracles, es: seq<Entry>, i: nat, today: int)
    requires Lawful(o) && Apart(EntryProfiles(o, es)) && AllLasting(es) && i < |es|
    ensures Apart(EntryProfiles(o, es[i := Bumped(es[i], today)])) && AllLasting(es[i := Bumped(es[i], today)])
  {
    var ps := EntryProfiles(o, es);
    var w := Shown(Next(es[i].text));
    BumpShows(o, es[i].text);
    assert EntryProfiles(o, es[i := Bumped(es[i], today)]) == ps[i := ProfileOf(o, w)];
    if Blank(w) {
      BlankStaysApart(o, ps, i, w);
    } else {
      assert ps[i := ProfileOf(o, w)] == ps;
    }
  }

  lemma BlankStaysApart(o: Oracles, ps: seq<Profile>, i: nat, w: string)
    requires Lawful(o) && Apart(ps) && i < |ps| && Blank(w)
    ensures Apart(ps[i := ProfileOf(o, w)])
  {
    var p := ProfileOf(o, w);
    assert p.norm == "";
  }

  lemma FoundStaysApart(o: Oracles, es: seq<Entry>, needle: Profile, cleaned: string, conf: string, today: int)
    requires Lawful(o) && Apart(EntryProfiles(o, es)) && AllLasting(es)
    requires needle == Needle(o, cleaned) && needle.norm != "" && Stable(cleaned)
    ensures var es' := AddFound(es, FirstSimilar(needle, EntryProfiles(o, es)), cleaned, conf, today);
            Apart(EntryProfiles(o, es')) && AllLasting(es')
  {
    var ps := EntryProfiles(o, es);
    FirstSimilarInRange(needle, ps);
    var dup := FirstSimilar(needle, ps);
    if dup.Some? {
      BumpStaysApart(o, es, dup.value, today);
    } else {
      NewStaysApart(o, es, ps, needle, cleaned, Tagged(conf, today, 0));
    }
  }

  lemma NewStaysApart(o: Oracles, es: seq<Entry>, ps: seq<Profile>, needle: Profile, cleaned: string, tag: Tag)
    requires Lawful(o) && ps == EntryProfiles(o, es) && Apart(ps) && AllLasting(es)
    requires needle == Needle(o, cleaned) && needle.norm != "" && Stable(cleaned)
    requires forall i :: 0 <= i < |ps| ==> !Similar(needle, ps[i], DEDUP_THRESHOLD)
    ensures Apart(EntryProfiles(o, es + [Entry(cleaned, tag)])) && AllLasting(es + [Entry(cleaned, tag)])
  {
    var e := Entry(cleaned, tag);
    StableShows(o, cleaned);
    ProfilesSnoc(o, es, e);
    LastingSnoc(es, e);
    SameOrBlankApart(ps, needle, ProfileOf(o, Shown(cleaned)));
  }

  lemma ProfilesSnoc(o: Oracles, es: seq<Entry>, e: Entry)
    ensures EntryProfiles(o, es + [e]) == EntryProfiles(o, es) + [ProfileOf(o, Shown(e.text))]
  {
  }

  lemma SameOrBlankApart(ps: seq<Profile>, needle: Profile, p: Profile)
    requires Apart(ps) && (p == needle || p.norm == "")
    requires forall i :: 0 <= i < |ps| ==> !Similar(needle, ps[i], DEDUP_THRESHOLD)
    ensures Apart(ps + [p])
  {
    forall i | 0 <= i < |ps| ensures !Similar(p, ps[i], DEDUP_THRESHOLD) {
      assert !Similar(needle, ps[i], DEDUP_THRESHOLD);
    }
    AppendApart(ps, p);
  }

  lemma StableShows(o: Oracles, c: string)
    requires Lawful(o) && Stable(c) && Needle(o, c).norm != ""
    ensures ProfileOf(o, Shown(c)) == Needle(o, c) || ProfileOf(o, Shown(c)).norm == ""
    ensures Lasting(c)
  {
  }

  lemma AppendApart(ps: seq<Profile>, p: Profile)
    requires Apart(ps) && forall i :: 0 <= i < |ps| ==> !Similar(p, ps[i], DEDUP_THRESHOLD)
    ensures Apart(ps + [p])
  {
    forall i | 0 <= i < |ps| ensures !Similar(ps[i], p, DEDUP_THRESHOLD) {
      SimilarSymmetric(ps[i], p, DEDUP_THRESHOLD);
    }
  }

  lemma {:induction false} KeepStaysApart(o: Oracles, es: seq<Entry>, today: int, maxAge: int)
    requires Apart(EntryProfiles(o, es))
    ensures Apart(EntryProfiles(o, KeepEntries(es, today, maxAge)))
    ensures Among(EntryProfiles(o, KeepEntries(es, today, maxAge)), EntryProfiles(o, es))
    decreases |es|
  {
    if es != [] {
      var n := |es| - 1;
      var ps := EntryProfiles(o, es);
      var init := KeepEntries(es[..n], today, maxAge);
      assert EntryProfiles(o, es[..n]) == ps[..n];
      KeepStaysApart(o, es[..n], today, maxAge);
      AmongPrefix(EntryProfiles(o, init), ps);
      if !Stale(es[n], today, maxAge) {
        assert EntryProfiles(o, init + [es[n]]) == EntryProfiles(o, init) + [ps[n]];
        LaterApart(ps, EntryProfiles(o, init));
      }
    }
  }

  predicate Among(qs: seq<Profile>, ps: seq<Profile>) {
    forall q :: q in qs ==> q in ps
  }

  lemma AmongPrefix(qs: seq<Profile>, ps: seq<Profile>)
    requires ps != [] && Among(qs, ps[..|ps| - 1])
    ensures Among(qs, ps)
  {
  }

  lemma {:induction false} KeepStaysLasting(es: seq<Entry>, today: int, maxAge: int)
    requires AllLasting(es)
    ensures AllLasting(KeepEntries(es, today, maxAge))
    decreases |es|
  {
    if es != [] {
      var n := |es| - 1;
      var init := KeepEntries(es[..n], today, maxAge);
      KeepStaysLasting(es[..n], today, maxAge);
      LastingSnoc(init, es[n]);
    }
  }

  lemma LastingSnoc(es: seq<Entry>, e: Entry)
    requires AllLasting(es) && Lasting(e.text)
    ensures AllLasting(es + [e])
  {
  }

  /** Space before an entry is nothing to deduplication. */
  lemma {:induction false} TrimShows(t: string)
    ensures Strip(Shown(Lstrip(t))) == Strip(Shown(t))
    ensures Lasting(t) ==> Lasting(Lstrip(t))
    decreases |t|
  {
    if t != "" && IsSpace(t[0]) {
      SpaceShows(t);
      LastingTail(t);
      TrimShows(t[1..]);
    }
  }

  lemma SpaceShows(t: string)
    requires t != "" && IsSpace(t[0])
    ensures Strip(Shown(t)) == Strip(Shown(t[1..]))
  {
    ShownTail(t);
    var w := Shown(t[1..]);
    assert ([t[0]] + w)[1..] == w;
  }

  lemma LastingTail(t: string)
    requires t != "" && IsSpace(t[0])
    ensures Lasting(t) ==> Lasting(t[1..])
  {
    SpaceShows(t);
    NextTail(t);
    if Next(t) != Next(t[1..]) { SpaceShows(Next(t)); }
  }

  lemma TrimStaysApart(o: Oracles, es: seq<Entry>)
    requires Lawful(o) && Apart(EntryProfiles(o, es)) && AllLasting(es)
    ensures Apart(EntryProfiles(o, TrimFirst(es))) && AllLasting(TrimFirst(es))
  {
    if es != [] {
      TrimShows(es[0].text);
      ProfileIgnoresEnds(o, Shown(Lstrip(es[0].text)), Shown(es[0].text));
      SameProfiles(o, es, Trim(es[0]));
    }
  }

  lemma SameProfiles(o: Oracles, es: seq<Entry>, e: Entry)
    requires es != [] && ProfileOf(o, Shown(e.text)) == ProfileOf(o, Shown(es[0].text))
    ensures EntryProfiles(o, es[0 := e]) == EntryProfiles(o, es)
  {
  }

  lemma PruneStaysApart(o: Oracles, es: seq<Entry>, today: int, maxAge: int)
    requires Lawful(o) && Apart(EntryProfiles(o, es)) && AllLasting(es)
    ensures Apart(EntryProfiles(o, PruneEntries(es, today, maxAge))) && AllLasting(PruneEntries(es, today, maxAge))
  {
    KeepStaysApart(o, es, today, maxAge);
    KeepStaysLasting(es, today, maxAge);
    TrimStaysApart(o, KeepEntries(es, today, maxAge));
  }

  lemma LaterApart(ps: seq<Profile>, qs: seq<Profile>)
    requires ps != [] && Apart(ps) && Apart(qs) && Among(qs, ps[..|ps| - 1])
    ensures Apart(qs + [ps[|ps| - 1]]) && Among(qs + [ps[|ps| - 1]], ps)
  {
    forall i | 0 <= i < |qs| ensures !Similar(qs[i], ps[|ps| - 1], DEDUP_THRESHOLD) {
      assert qs[i] in qs;
      var k :| 0 <= k < |ps| - 1 && ps[k] == qs[i];
    }
  }

  predicate AddsStable(op: Op) {
    op.AddOp? ==> Stable(Clean(op.content))
  }

  /** Any run of adds of stable contents and prunes, from an empty file, leaves no two entries similar. */
  lemma {:induction false} RunStaysApart(o: Oracles, limit: nat, ops: seq<Op>) returns (es: seq<Entry>)
    requires Lawful(o) && forall i :: 0 <= i < |ops| ==> AddsOrPrunes(ops[i]) && AddsStable(ops[i])
    ensures Holds(o, RunText(o, limit, "", ops), es) && AllSound(es) && Settled(o, es)
    decreases |ops|
  {
    if ops == [] {
      es := [];
    } else {
      var n := |ops| - 1;
      var before := RunStaysApart(o, limit, ops[..n]);
      es := StepStaysApart(o, limit, RunText(o, limit, "", ops[..n]), before, ops[n]);
    }
  }

  lemma StepStaysApart(o: Oracles, limit: nat, text: string, before: seq<Entry>, op: Op) returns (es: seq<Entry>)
    requires Lawful(o) && Holds(o, text, before) && AllSound(before) && Settled(o, before)
    requires AddsOrPrunes(op) && AddsStable(op)
    ensures Holds(o, StepText(o, limit, text, op), es) && AllSound(es) && Settled(o, es)
  {
    match op
    case AddOp(content, conf, today) =>
      CleanedIsSolid(content);
      StableIsCarried(o, Clean(content));
      es := StepHolds(o, limit, text, before, op);
      AddSettles(o, before, Clean(content), conf, today, es);
    case PruneOp(day, maxAge) =>
      es := StepHolds(o, limit, text, before, op);
      PruneSettles(o, before, day, maxAge);
  }

  /** No two entries are similar, and none comes to show anything else. */
  predicate Settled(o: Oracles, es: seq<Entry>) {
    Apart(EntryProfiles(o, es)) && AllLasting(es)
  }

  lemma AddSettles(o: Oracles, es: seq<Entry>, cleaned: string, conf: string, today: int, es': seq<Entry>)
    requires Lawful(o) && Settled(o, es) && Stable(cleaned) && EndsInText(cleaned)
    requires es' == es || es' == AddEntries(o, es, cleaned, conf, today)
    ensures Settled(o, es')
  {
    AddStaysApart(o, es, cleaned, conf, today);
  }

  lemma PruneSettles(o: Oracles, es: seq<Entry>, today: int, maxAge: int)
    requires Lawful(o) && Settled(o, es)
    ensures Settled(o, PruneEntries(es, today, maxAge))
  {
    PruneStaysApart(o, es, today, maxAge);
  }

  // ---------- the audit's view ----------

  /** The entries the audit looks at: those with a visible body. */
  function AuditParts(parts: seq<string>): seq<string> {
    if parts == [] then []
    else (if Strip(StripMeta(parts[0])) != "" then [parts[0]] else []) + AuditParts(parts[1..])
  }

  lemma {:induction false} AuditPartsApart(o: Oracles, parts: seq<string>)
    requires Apart(Profiles(o, parts))
    ensures Apart(Profiles(o, AuditParts(parts)))
    ensures forall p :: p in Profiles(o, AuditParts(parts)) ==> p in Profiles(o, parts)
    decreases |parts|
  {
    if parts != [] {
      var rest := AuditParts(parts[1..]);
      ProfilesTail(o, parts);
      AuditPartsApart(o, parts[1..]);
      EarlierApart(Profiles(o, parts), Profiles(o, rest));
      ProfilesCons(o, parts, rest);
      AuditPartsUnfold(parts);
    }
  }

  lemma ProfilesTail(o: Oracles, parts: seq<string>)
    requires parts != []
    ensures Profiles(o, parts[1..]) == Profiles(o, parts)[1..]
  {
  }

  lemma ProfilesCons(o: Oracles, parts: seq<string>, rest: seq<string>)
    requires parts != []
    ensures Profiles(o, [parts[0]] + rest) == [Profiles(o, parts)[0]] + Profiles(o, rest)
  {
  }

  lemma AuditPartsUnfold(parts: seq<string>)
    requires parts != []
    ensures AuditParts(parts) == AuditParts(parts[1..]) || AuditParts(parts) == [parts[0]] + AuditParts(parts[1..])
  {
    assert [] + AuditParts(parts[1..]) == AuditParts(parts[1..]);
  }

  lemma EarlierApart(ps: seq<Profile>, qs: seq<Profile>)
    requires ps != [] && Apart(ps) && Apart(qs) && forall q :: q in qs ==> q in ps[1..]
    ensures Apart([ps[0]] + qs)
    ensures forall q :: q in [ps[0]] + qs ==> q in ps
  {
    forall i | 0 <= i < |qs| ensures !Similar(ps[0], qs[i], DEDUP_THRESHOLD) {
      assert qs[i] in qs;
      var k :| 1 <= k < |ps| && ps[k] == qs[i];
    }
  }

  lemma StayUnlike(a: Profile, b: Profile, t: real)
    requires !Similar(a, b, DEDUP_THRESHOLD) && t >= DEDUP_THRESHOLD
    ensures !Similar(a, b, t) && !Similar(b, a, t)
  {
    SimilarSymmetric(a, b, t);
    if Similar(a, b, t) {
      SimilarAntitone(a, b, DEDUP_THRESHOLD, t);
    }
  }

  lemma ApartHasNoCluster(ps: seq<Profile>, t: real, cs: seq<seq<nat>>)
    requires Apart(ps) && t >= DEDUP_THRESHOLD && MemoryAudit.AreClusters(ps, t, cs)
    ensures cs == []
  {
    forall i, j | 0 <= i < |ps| && 0 <= j < |ps| ensures !MemoryAudit.Edge(ps, t, i, j) {
      if i != j {
        StayUnlike(ps[if i < j then i else j], ps[if i < j then j else i], t);
      }
    }
    MemoryAudit.NoClusterIffNoEdge(ps, t, cs);
  }

  /**
   * Live deduplication agrees with the audit: after any run of adds of stable contents and prunes from
   * an empty file, the clusters the audit finds at the live threshold, or any higher one, are none.
   */
  lemma AuditFindsNothing(o: Oracles, limit: nat, ops: seq<Op>, t: real, cs: seq<seq<nat>>)
    requires Lawful(o) && forall i :: 0 <= i < |ops| ==> AddsOrPrunes(ops[i]) && AddsStable(ops[i])
    requires t >= DEDUP_THRESHOLD
    requires MemoryAudit.AreClusters(Profiles(o, AuditParts(SplitEntries(RunText(o, limit, "", ops)))), t, cs)
    ensures cs == []
  {
    var es := RunStaysApart(o, limit, ops);
    var text := RunText(o, limit, "", ops);
    HeldPartsApart(o, text, es);
    AuditPartsApart(o, SplitEntries(text));
    ApartHasNoCluster(Profiles(o, AuditParts(SplitEntries(text))), t, cs);
  }

  lemma HeldPartsApart(o: Oracles, text: string, es: seq<Entry>)
    requires Lawful(o) && Holds(o, text, es) && AllSound(es) && Apart(EntryProfiles(o, es))
    ensures Apart(Profiles(o, SplitEntries(text)))
  {
    if es != [] {
      HeldProfiles(o, text, es);
    }
  }

  // ---------- a reinforced entry stays ----------

  /** The entry shows this body for good and has at least this many reinforcements. */
  predicate Shows(e: Entry, body: string, n: nat) {
    Closed(e.text) && Strip(e.text) == body && e.tag.Tagged? && e.tag.reinforced >= n
  }

  ghost predicate Remembers(es: seq<Entry>, body: string, n: nat) {
    exists i :: 0 <= i < |es| && Shows(es[i], body, n)
  }

  lemma AddRemembers(o: Oracles, es: seq<Entry>, cleaned: string, conf: string, today: int, body: string, n: nat)
    requires AllSound(es) && Remembers(es, body, n)
    ensures Remembers(AddEntries(o, es, cleaned, conf, today), body, n)
  {
    var i :| 0 <= i < |es| && Shows(es[i], body, n);
    var needle := Needle(o, cleaned);
    if needle.norm == "" {
      BumpRemembers(es, i, 0, today, body, n);
    } else {
      FoundRemembers(es, i, FirstSimilar(needle, EntryProfiles(o, es)), cleaned, conf, today, body, n);
    }
  }

  lemma BumpRemembers(es: seq<Entry>, i: nat, k: nat, today: int, body: string, n: nat)
    requires AllSound(es) && i < |es| && k < |es| && Shows(es[i], body, n)
    ensures Remembers(es[k := Bumped(es[k], today)], body, n)
  {
    NextIsWhole(es[i].text);
    assert Shows(es[k := Bumped(es[k], today)][i], body, n);
  }

  lemma FoundRemembers(es: seq<Entry>, i: nat, dup: Option<nat>, cleaned: string, conf: string, today: int, body: string, n: nat)
    requires AllSound(es) && i < |es| && Shows(es[i], body, n)
    ensures Remembers(AddFound(es, dup, cleaned, conf, today), body, n)
  {
    if dup.Some? && dup.value < |es| {
      BumpRemembers(es, i, dup.value, today, body, n);
    } else {
      assert AddFound(es, dup, cleaned, conf, today)[i] == es[i];
    }
  }

  lemma KeepRemembers(es: seq<Entry>, today: int, maxAge: int, body: string, n: nat)
    requires n >= 1 && Remembers(es, body, n)
    ensures Remembers(KeepEntries(es, today, maxAge), body, n)
  {
    var i :| 0 <= i < |es| && Shows(es[i], body, n);
    assert !Stale(es[i], today, maxAge);
    var j := KeptAt(es, today, maxAge, i);
  }

  /** Where an entry that is not stale ends up. */
  lemma {:induction false} KeptAt(es: seq<Entry>, today: int, maxAge: int, i: nat) returns (j: nat)
    requires i < |es| && !Stale(es[i], today, maxAge)
    ensures j < |KeepEntries(es, today, maxAge)| && KeepEntries(es, today, maxAge)[j] == es[i]
    decreases |es|
  {
    var k := |es| - 1;
    if i < k {
      j := KeptAt(es[..k], today, maxAge, i);
    } else {
      j := |KeepEntries(es[..k], today, maxAge)|;
    }
  }

  lemma TrimRemembers(es: seq<Entry>, body: string, n: nat)
    requires Remembers(es, body, n)
    ensures Remembers(TrimFirst(es), body, n)
  {
    var i :| 0 <= i < |es| && Shows(es[i], body, n);
    if i == 0 {
      ClosedLstrip(es[0].text);
    }
    assert Shows(TrimFirst(es)[i], body, n);
  }

  lemma {:induction false} ClosedLstrip(t: string)
    requires Closed(t)
    ensures Closed(Lstrip(t)) && Strip(Lstrip(t)) == Strip(t)
    decreases |t|
  {
    if t != "" && IsSpace(t[0]) { ClosedLstrip(t[1..]); }
  }

  lemma PruneRemembers(es: seq<Entry>, today: int, maxAge: int, body: string, n: nat)
    requires n >= 1 && Remembers(es, body, n)
    ensures Remembers(PruneEntries(es, today, maxAge), body, n)
  {
    KeepRemembers(es, today, maxAge, body, n);
    TrimRemembers(KeepEntries(es, today, maxAge), body, n);
  }

  /** However many adds and prunes follow, an entry reinforced once is still there and shows the same body. */
  lemma {:induction false} ReinforcedStays(o: Oracles, limit: nat, text: string, es: seq<Entry>, ops: seq<Op>, body: string, n: nat)
    returns (es': seq<Entry>)
    requires Lawful(o) && Holds(o, text, es) && AllSound(es) && n >= 1 && Remembers(es, body, n)
    requires forall i :: 0 <= i < |ops| ==> AddsOrPrunes(ops[i]) && Faithful(o, ops[i])
    ensures Holds(o, RunText(o, limit, text, ops), es') && AllSound(es') && Remembers(es', body, n)
    decreases |ops|
  {
    if ops == [] {
      es' := es;
    } else {
      var k := |ops| - 1;
      var before := ReinforcedStays(o, limit, text, es, ops[..k], body, n);
      es' := StepHolds(o, limit, RunText(o, limit, text, ops[..k]), before, ops[k]);
      match ops[k]
      case AddOp(content, conf, today) => AddRemembers(o, before, Clean(content), conf, today, body, n);
      case PruneOp(day, maxAge) => PruneRemembers(before, day, maxAge, body, n);
    }
  }
}
