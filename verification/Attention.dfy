/** The attention tray: which problems are current, which are filed as warnings, and when again. */
module Attention {
  import opened Common
  import opened Sorting

  const NEAR_PCT := 95
  const CLEAR_PCT := 90
  const FLOOD_LIMIT := 3

  // ---------- problems and their keys ----------

  /** How full a memory file is; only capped files with a limit are looked at. */
  datatype Usage = Usage(file: string, used: nat, limit: nat)

  predicate Capped(file: string) { file == "USER.md" || file == "MEMORY.md" }

  datatype Item = Item(file: string, used: nat, limit: nat, over: bool)

  /** Problems of skills and failed schedules, as the other collectors report them. */
  datatype Problem = Skill(category: string, name: string, problem: string) | Schedule(id: string, at: string)

  function MemoryKey(file: string): string { "memory:" + file }

  function CapKey(file: string): string { "memory:" + file + ":cap" }

  function ProblemKey(p: Problem): string {
    match p
    case Skill(category, name, problem) => "skill:" + category + "/" + name + ":" + problem
    case Schedule(id, at) => "schedule:" + id + ":" + at
  }

  /** The share of its limit from which a file is listed: lower while it is already flagged. */
  function Floor(flagged: set<string>, file: string): nat {
    if MemoryKey(file) in flagged then CLEAR_PCT else NEAR_PCT
  }

  predicate Listed(flagged: set<string>, u: Usage) {
    Capped(u.file) && u.limit != 0 && u.used * 100 >= u.limit * Floor(flagged, u.file)
  }

  function ItemOf(u: Usage): Item { Item(u.file, u.used, u.limit, u.used > u.limit) }

  function MemoryItems(usages: seq<Usage>, flagged: set<string>): seq<Item> {
    if usages == [] then []
    else
      var u := usages[|usages| - 1];
      MemoryItems(usages[..|usages| - 1], flagged) + if Listed(flagged, u) then [ItemOf(u)] else []
  }

  /** `_memory` */
  method Memory(usages: seq<Usage>, stored: Option<set<string>>) returns (items: seq<Item>)
    ensures items == MemoryItems(usages, Previous(stored))
  {
    var flagged := if stored.Some? then stored.value else {};
    items := [];
    for i := 0 to |usages|
      invariant items == MemoryItems(usages[..i], flagged)
    {
      assert usages[..i + 1][..i] == usages[..i];
      var u := usages[i];
      if !Capped(u.file) || u.limit == 0 {
        continue;
      }
      var floor := if MemoryKey(u.file) in flagged then CLEAR_PCT else NEAR_PCT;
      if u.used * 100 >= u.limit * floor {
        items := items + [Item(u.file, u.used, u.limit, u.used > u.limit)];
      }
    }
    assert usages[..|usages|] == usages;
  }

  function Previous(stored: Option<set<string>>): set<string> {
    if stored.Some? then stored.value else {}
  }

  /** Keys with whether they are worth a warning of their own. */
  function MemoryKeys(items: seq<Item>): map<string, bool> {
    if items == [] then map[]
    else
      var i := items[|items| - 1];
      var keys := MemoryKeys(items[..|items| - 1])[MemoryKey(i.file) := true];
      if i.over then keys[CapKey(i.file) := false] else keys
  }

  function WithProblems(keys: map<string, bool>, ps: seq<Problem>): map<string, bool> {
    if ps == [] then keys
    else WithProblems(keys, ps[..|ps| - 1])[ProblemKey(ps[|ps| - 1]) := ps[|ps| - 1].Skill?]
  }

  /** `_keys` */
  function Keys(items: seq<Item>, ps: seq<Problem>): map<string, bool> {
    WithProblems(MemoryKeys(items), ps)
  }

  // ---------- joined keys ----------

  function JoinComma(keys: seq<string>): string {
    if keys == [] then "" else if |keys| == 1 then keys[0] else keys[0] + ("," + JoinComma(keys[1..]))
  }

  /** `key.split(",")` */
  function SplitComma(s: string): (r: seq<string>)
    ensures |r| >= 1
    ensures forall i, j :: 0 <= i < |r| && 0 <= j < |r[i]| ==> r[i][j] != ','
  {
    if s == "" then [""]
    else
      var rest := SplitComma(s[1..]);
      if s[0] == ',' then [""] + rest else [[s[0]] + rest[0]] + rest[1..]
  }

  lemma {:induction false} SplitOne(s: string)
    requires ',' !in s
    ensures SplitComma(s) == [s]
  {
    if s != "" {
      assert ',' !in s[1..];
      SplitOne(s[1..]);
      assert [s[0]] + s[1..] == s;
    }
  }

  lemma {:induction false} SplitMore(s: string, t: string)
    ensures SplitComma(s + ("," + t)) == SplitComma(s) + SplitComma(t)
    decreases |s|
  {
    var whole := s + ("," + t);
    if s == "" {
      assert whole == "," + t;
      assert whole[1..] == t;
    } else {
      assert whole[1..] == s[1..] + ("," + t);
      SplitMore(s[1..], t);
    }
  }

  /** A key comes back from splitting the joined keys exactly when it holds no comma. */
  lemma {:induction false} KeyComesBack(keys: seq<string>, k: string)
    requires k in keys
    ensures k in SplitComma(JoinComma(keys)) <==> ',' !in k
    decreases |keys|
  {
    var pieces := SplitComma(JoinComma(keys));
    if ',' in k {
      assert k !in pieces;
    } else if |keys| == 1 {
      SplitOne(k);
    } else {
      SplitMore(keys[0], JoinComma(keys[1..]));
      if k == keys[0] {
        SplitOne(k);
        assert SplitComma(k)[0] == k;
      } else {
        KeyComesBack(keys[1..], k);
      }
    }
  }

  // ---------- one tick ----------

  /** What the world does during a tick: whether the two saves succeed, and which filings do. */
  datatype World = World(saves: bool, savesAgain: bool, files: string -> bool)

  function Fresh(keys: map<string, bool>, previous: set<string>): seq<string> {
    Notifiable(keys, SortStrings(keys.Keys - previous))
  }

  function Notifiable(keys: map<string, bool>, ks: seq<string>): seq<string> {
    if ks == [] then []
    else
      var k := ks[|ks| - 1];
      Notifiable(keys, ks[..|ks| - 1]) + if k in keys && keys[k] then [k] else []
  }

  /** More than a few are filed as one. */
  function Batch(fresh_: seq<string>): (r: seq<string>)
    ensures |r| <= 3 && JoinComma(r) == JoinComma(fresh_) && (|fresh_| <= 3 ==> r == fresh_)
  {
    if |fresh_| > FLOOD_LIMIT then [JoinComma(fresh_)] else fresh_
  }

  function FailedKeys(batch: seq<string>, files: string -> bool): set<string> {
    if batch == [] then {}
    else
      FailedKeys(batch[..|batch| - 1], files)
      + if files(batch[|batch| - 1]) then {} else Elements(SplitComma(batch[|batch| - 1]))
  }

  function CurrentKeys(stored: Option<set<string>>, usages: seq<Usage>, ps: seq<Problem>): map<string, bool> {
    Keys(MemoryItems(usages, Previous(stored)), ps)
  }

  /** The warnings a tick tries to file. */
  function FiledKeys(stored: Option<set<string>>, keys: map<string, bool>, w: World): seq<string> {
    if stored == Some(keys.Keys) || !w.saves then [] else Fresh(keys, Previous(stored))
  }

  function NextStored(stored: Option<set<string>>, keys: map<string, bool>, w: World): Option<set<string>> {
    if stored == Some(keys.Keys) || !w.saves then stored
    else
      var failed := FailedKeys(Batch(Fresh(keys, Previous(stored))), w.files);
      if failed != {} && w.savesAgain then Some(keys.Keys - failed) else Some(keys.Keys)
  }

  method Warnings(keys: map<string, bool>, candidates: seq<string>) returns (fresh_: seq<string>)
    ensures fresh_ == Notifiable(keys, candidates)
  {
    fresh_ := [];
    for i := 0 to |candidates|
      invariant fresh_ == Notifiable(keys, candidates[..i])
    {
      assert candidates[..i + 1][..i] == candidates[..i];
      if candidates[i] in keys && keys[candidates[i]] {
        fresh_ := fresh_ + [candidates[i]];
      }
    }
    assert candidates[..|candidates|] == candidates;
  }

  /** Tries every filing; what raised is to be tried again. */
  method File(filings: seq<string>, files: string -> bool) returns (failed: set<string>)
    ensures failed == FailedKeys(filings, files)
  {
    failed := {};
    for i := 0 to |filings|
      invariant failed == FailedKeys(filings[..i], files)
    {
      assert filings[..i + 1][..i] == filings[..i];
      if !files(filings[i]) {
        failed := failed + Elements(SplitComma(filings[i]));
      }
    }
    assert filings[..|filings|] == filings;
  }

  /** The tray of one profile. */
  class Tray {
    var stored: Option<set<string>>

    constructor ()
      ensures stored == None
    {
      stored := None;
    }

    /** `reconcile`: returns the output keys it tried to file, in order. */
    method Reconcile(usages: seq<Usage>, ps: seq<Problem>, w: World) returns (filings: seq<string>)
      modifies this
      ensures var keys := CurrentKeys(old(stored), usages, ps);
              && stored == NextStored(old(stored), keys, w)
              && filings == Batch(FiledKeys(old(stored), keys, w))
      ensures |filings| <= 3
    {
      var items := Memory(usages, stored);
      var keys := Keys(items, ps);
      var previous := Previous(stored);
      var current := keys.Keys;
      if stored.Some? && current == previous {
        return [];
      }
      if !w.saves {
        return [];
      }
      stored := Some(current);
      var fresh_ := Warnings(keys, SortStrings(current - previous));
      filings := Batch(fresh_);
      var failed := File(filings, w.files);
      if failed != {} && w.savesAgain {
        stored := Some(current - failed);
      }
    }
  }

  // ---------- runs of ticks ----------

  datatype Tick = Tick(usages: seq<Usage>, ps: seq<Problem>, w: World)

  /** What is stored before each tick and after the last, and the current keys and the filings tried of each tick. */
  datatype Run = Run(ticks: seq<Tick>, stored: seq<Option<set<string>>>, keys: seq<map<string, bool>>, filed: seq<seq<string>>)

  ghost predicate IsRun(r: Run) {
    && |r.stored| == |r.ticks| + 1 && |r.keys| == |r.filed| == |r.ticks|
    && forall i :: 0 <= i < |r.ticks| ==> Follows(r.ticks[i], r.stored[i], r.keys[i], r.filed[i], r.stored[i + 1])
  }

  /** What `Tray.Reconcile` does in one tick. */
  predicate Follows(t: Tick, stored: Option<set<string>>, keys: map<string, bool>, filed: seq<string>,
                    next: Option<set<string>>)
  {
    && keys == CurrentKeys(stored, t.usages, t.ps)
    && filed == FiledKeys(stored, keys, t.w) && next == NextStored(stored, keys, t.w)
  }

  /** Every start and every sequence of ticks has its run. */
  lemma {:induction false} RunExists(start: Option<set<string>>, ticks: seq<Tick>) returns (r: Run)
    ensures IsRun(r) && r.ticks == ticks && r.stored[0] == start
    decreases |ticks|
  {
    if ticks == [] {
      r := Run([], [start], [], []);
    } else {
      var init, t := ticks[..|ticks| - 1], ticks[|ticks| - 1];
      var q := RunExists(start, init);
      var stored := q.stored[|init|];
      var keys := CurrentKeys(stored, t.usages, t.ps);
      r := Run(ticks, q.stored + [NextStored(stored, keys, t.w)], q.keys + [keys], q.filed + [FiledKeys(stored, keys, t.w)]);
      forall i | 0 <= i < |ticks| ensures Follows(r.ticks[i], r.stored[i], r.keys[i], r.filed[i], r.stored[i + 1]) {
        if i < |init| { assert Follows(q.ticks[i], q.stored[i], q.keys[i], q.filed[i], q.stored[i + 1]); }
      }
    }
  }

  ghost predicate AllSucceeds(r: Run) {
    forall i :: 0 <= i < |r.ticks| ==> Succeeds(r.ticks[i].w)
  }

  ghost predicate Succeeds(w: World) {
    w.saves && w.savesAgain && forall k :: w.files(k)
  }

  lemma {:induction false} NotifiableSpec(keys: map<string, bool>, ks: seq<string>, k: string)
    ensures k in Notifiable(keys, ks) <==> k in ks && k in keys && keys[k]
    decreases |ks|
  {
    if ks != [] {
      NotifiableSpec(keys, ks[..|ks| - 1], k);
      assert ks == ks[..|ks| - 1] + [ks[|ks| - 1]];
    }
  }

  /** What is filed: the notifiable keys that are current and were not stored. */
  lemma FreshSpec(keys: map<string, bool>, previous: set<string>, k: string)
    ensures k in Fresh(keys, previous) <==> k in keys && keys[k] && k !in previous
  {
    NotifiableSpec(keys, SortStrings(keys.Keys - previous), k);
    assert k in Elements(SortStrings(keys.Keys - previous)) <==> k in keys && k !in previous;
  }

  lemma {:induction false} NothingFails(batch: seq<string>, files: string -> bool)
    requires forall k :: files(k)
    ensures FailedKeys(batch, files) == {}
    decreases |batch|
  {
    if batch != [] { NothingFails(batch[..|batch| - 1], files); }
  }

  /** While all saves and filings succeed, the stored keys are those of the tick before. */
  lemma StoredIsCurrent(r: Run, i: nat)
    requires IsRun(r) && AllSucceeds(r) && i < |r.ticks|
    ensures r.stored[i + 1] == Some(r.keys[i].Keys)
  {
    assert Succeeds(r.ticks[i].w);
    assert Follows(r.ticks[i], r.stored[i], r.keys[i], r.filed[i], r.stored[i + 1]);
    StepStores(r.stored[i], r.keys[i], r.ticks[i].w);
  }

  lemma StepStores(stored: Option<set<string>>, keys: map<string, bool>, w: World)
    requires Succeeds(w)
    ensures NextStored(stored, keys, w) == Some(keys.Keys)
  {
    NothingFails(Batch(Fresh(keys, Previous(stored))), w.files);
  }

  lemma FiledIsNew(stored: Option<set<string>>, keys: map<string, bool>, w: World, k: string)
    requires k in FiledKeys(stored, keys, w)
    ensures k in keys && keys[k] && k !in Previous(stored)
  {
    FreshSpec(keys, Previous(stored), k);
  }

  /** No key is filed twice while it stays current. */
  lemma FiledOnceWhilePresent(r: Run, i: nat, j: nat, k: string)
    requires IsRun(r) && AllSucceeds(r) && i < j < |r.ticks|
    requires k in r.filed[i] && k in r.filed[j]
    ensures i < j - 1 && k !in r.keys[j - 1]
  {
    FiledWasNew(r, i, k);
    FiledWasAbsent(r, j, k);
  }

  lemma FiledWasNew(r: Run, i: nat, k: string)
    requires IsRun(r) && i < |r.ticks| && k in r.filed[i]
    ensures k in r.keys[i] && r.keys[i][k] && k !in Previous(r.stored[i])
  {
    assert Follows(r.ticks[i], r.stored[i], r.keys[i], r.filed[i], r.stored[i + 1]);
    FiledIsNew(r.stored[i], r.keys[i], r.ticks[i].w, k);
  }

  lemma FiledWasAbsent(r: Run, j: nat, k: string)
    requires IsRun(r) && AllSucceeds(r) && 0 < j < |r.ticks| && k in r.filed[j]
    ensures k !in r.keys[j - 1]
  {
    StoredIsCurrent(r, j - 1);
    FiledWasNew(r, j, k);
  }

  // ---------- hysteresis of memory files ----------

  /** The capped files of a tick, each reported once. */
  predicate UsageOf(usages: seq<Usage>, u: Usage) {
    u in usages && forall v :: v in usages && v.file == u.file ==> v == u
  }

  lemma KeyShapes(file: string, other: string, p: Problem)
    requires Capped(file) && Capped(other)
    ensures MemoryKey(file) != ProblemKey(p) && MemoryKey(file) != CapKey(other)
    ensures MemoryKey(file) == MemoryKey(other) ==> file == other
  {
    assert MemoryKey(file)[0] == 'm' && ProblemKey(p)[0] == 's';
    assert |MemoryKey(file)| == 7 + |file| && |CapKey(other)| == 11 + |other|;
    assert MemoryKey(file)[7..] == file && MemoryKey(other)[7..] == other;
    if |file| == |other| + 4 {
      assert false;
    }
  }

  lemma {:induction false} MemoryKeyListed(usages: seq<Usage>, flagged: set<string>, file: string)
    requires Capped(file)
    ensures var keys := MemoryKeys(MemoryItems(usages, flagged));
            && (MemoryKey(file) in keys <==> exists u :: u in usages && u.file == file && Listed(flagged, u))
            && (MemoryKey(file) in keys ==> keys[MemoryKey(file)])
    decreases |usages|
  {
    if usages != [] {
      var init, last := usages[..|usages| - 1], usages[|usages| - 1];
      MemoryKeyListed(init, flagged, file);
      assert usages == init + [last];
      var items := MemoryItems(init, flagged);
      assert items + [] == items;
      assert (items + [ItemOf(last)])[..|items|] == items;
      if Capped(last.file) { KeyShapes(file, last.file, Schedule("", "")); }
    }
  }

  lemma {:induction false} ProblemsElsewhere(keys: map<string, bool>, ps: seq<Problem>, file: string)
    requires Capped(file)
    ensures MemoryKey(file) in WithProblems(keys, ps) <==> MemoryKey(file) in keys
    ensures MemoryKey(file) in keys ==> WithProblems(keys, ps)[MemoryKey(file)] == keys[MemoryKey(file)]
    decreases |ps|
  {
    if ps != [] {
      ProblemsElsewhere(keys, ps[..|ps| - 1], file);
      KeyShapes(file, file, ps[|ps| - 1]);
    }
  }

  /** A file's key is current exactly when the file is at its floor, and then notifiable. */
  lemma MemoryKeyCurrent(stored: Option<set<string>>, usages: seq<Usage>, ps: seq<Problem>, u: Usage)
    requires UsageOf(usages, u) && Capped(u.file)
    ensures var keys := CurrentKeys(stored, usages, ps);
            && (MemoryKey(u.file) in keys <==> Listed(Previous(stored), u))
            && (MemoryKey(u.file) in keys ==> keys[MemoryKey(u.file)])
  {
    MemoryKeyListed(usages, Previous(stored), u.file);
    ProblemsElsewhere(MemoryKeys(MemoryItems(usages, Previous(stored))), ps, u.file);
  }

  /** A capped file at or above its floor: 95 percent of its limit, and 90 once it is flagged. */
  predicate NearlyFull(flagged: set<string>, u: Usage) {
    && (u.file == "USER.md" || u.file == "MEMORY.md") && u.limit != 0
    && u.used * 100 >= u.limit * (if "memory:" + u.file in flagged then 90 else 95)
  }

  ghost predicate FileKey(flagged: set<string>, usages: seq<Usage>, k: string) {
    exists u :: u in usages && NearlyFull(flagged, u) && k == "memory:" + u.file
  }

  ghost predicate OverKey(flagged: set<string>, usages: seq<Usage>, k: string) {
    exists u :: u in usages && NearlyFull(flagged, u) && u.used > u.limit && k == "memory:" + u.file + ":cap"
  }

  ghost predicate SkillKey(ps: seq<Problem>, k: string) {
    exists p :: p in ps && p.Skill? && k == "skill:" + p.category + "/" + p.name + ":" + p.problem
  }

  ghost predicate JobKey(ps: seq<Problem>, k: string) {
    exists p :: p in ps && p.Schedule? && k == "schedule:" + p.id + ":" + p.at
  }

  /**
   * The current keys: one for each file at its floor, one more when it is over its limit, one for each skill
   * problem and each failed schedule. Worth a warning of their own are the first and the third.
   */
  lemma KeysAre(stored: Option<set<string>>, usages: seq<Usage>, ps: seq<Problem>, k: string)
    ensures var keys, flagged := CurrentKeys(stored, usages, ps), if stored.Some? then stored.value else {};
            && (k in keys <==> FileKey(flagged, usages, k) || OverKey(flagged, usages, k) || SkillKey(ps, k) || JobKey(ps, k))
            && (k in keys ==> (keys[k] <==> FileKey(flagged, usages, k) || SkillKey(ps, k)))
  {
    var flagged := Previous(stored);
    MemoryKeysAre(usages, flagged, k);
    ProblemKeysAre(MemoryKeys(MemoryItems(usages, flagged)), ps, k);
    KindsApart(flagged, usages, ps, k);
  }

  /** A key of a memory file is of one kind, and no key of a problem; skills and schedules have different keys. */
  lemma KindsApart(flagged: set<string>, usages: seq<Usage>, ps: seq<Problem>, k: string)
    ensures FileKey(flagged, usages, k) || OverKey(flagged, usages, k) ==> !SkillKey(ps, k) && !JobKey(ps, k)
    ensures !(SkillKey(ps, k) && JobKey(ps, k))
  {
    assert FileKey(flagged, usages, k) || OverKey(flagged, usages, k) ==> k[0] == 'm';
    assert SkillKey(ps, k) ==> k[0] == 's' && k[1] == 'k';
    assert JobKey(ps, k) ==> k[0] == 's' && k[1] == 'c';
  }

  lemma OneMoreUsage(usages: seq<Usage>, u: Usage, flagged: set<string>, k: string)
    ensures FileKey(flagged, usages + [u], k) <==>
            FileKey(flagged, usages, k) || (NearlyFull(flagged, u) && k == "memory:" + u.file)
    ensures OverKey(flagged, usages + [u], k) <==>
            OverKey(flagged, usages, k) || (NearlyFull(flagged, u) && u.used > u.limit && k == "memory:" + u.file + ":cap")
  {
    assert u in usages + [u] && forall v :: v in usages + [u] <==> v in usages || v == u;
  }

  lemma {:induction false} MemoryKeysAre(usages: seq<Usage>, flagged: set<string>, k: string)
    ensures var keys := MemoryKeys(MemoryItems(usages, flagged));
            && (k in keys <==> FileKey(flagged, usages, k) || OverKey(flagged, usages, k))
            && (k in keys ==> (keys[k] <==> FileKey(flagged, usages, k)))
            && !(FileKey(flagged, usages, k) && OverKey(flagged, usages, k))
    decreases |usages|
  {
    if usages != [] {
      var init, u := usages[..|usages| - 1], usages[|usages| - 1];
      MemoryKeysAre(init, flagged, k);
      assert usages == init + [u];
      OneMoreUsage(init, u, flagged, k);
      var items := MemoryItems(init, flagged);
      assert items + [] == items;
      assert (items + [ItemOf(u)])[..|items|] == items;
      FileIsNoCap(flagged, init, u, k);
    }
  }

  /** The key of a file is not the key of a file over its limit. */
  lemma FileIsNoCap(flagged: set<string>, usages: seq<Usage>, u: Usage, k: string)
    ensures NearlyFull(flagged, u) && k == MemoryKey(u.file) ==> !OverKey(flagged, usages, k)
    ensures NearlyFull(flagged, u) && k == CapKey(u.file) ==> !FileKey(flagged, usages, k)
    ensures NearlyFull(flagged, u) ==> MemoryKey(u.file) != CapKey(u.file)
  {
    forall v | v in usages && NearlyFull(flagged, v) && NearlyFull(flagged, u)
      ensures MemoryKey(u.file) != CapKey(v.file) && MemoryKey(v.file) != CapKey(u.file)
    {
      KeyShapes(u.file, v.file, Schedule("", ""));
      KeyShapes(v.file, u.file, Schedule("", ""));
    }
    if NearlyFull(flagged, u) {
      KeyShapes(u.file, u.file, Schedule("", ""));
    }
  }

  lemma OneMoreProblem(ps: seq<Problem>, p: Problem, k: string)
    ensures SkillKey(ps + [p], k) <==> SkillKey(ps, k) || (p.Skill? && k == ProblemKey(p))
    ensures JobKey(ps + [p], k) <==> JobKey(ps, k) || (p.Schedule? && k == ProblemKey(p))
  {
    assert p in ps + [p] && forall q :: q in ps + [p] <==> q in ps || q == p;
  }

  lemma {:induction false} ProblemKeysAre(keys: map<string, bool>, ps: seq<Problem>, k: string)
    ensures var all := WithProblems(keys, ps);
            && (k in all <==> k in keys || SkillKey(ps, k) || JobKey(ps, k))
            && (k in all ==> (all[k] <==> SkillKey(ps, k) || (!JobKey(ps, k) && k in keys && keys[k])))
    decreases |ps|
  {
    if ps != [] {
      var init, p := ps[..|ps| - 1], ps[|ps| - 1];
      ProblemKeysAre(keys, init, k);
      assert ps == init + [p];
      OneMoreProblem(init, p, k);
      KindsApart({}, [], ps, k);
    }
  }

  /**
   * What is stored after a tick: the current keys, less those of the filings that raised if they could be
   * taken out again; what was stored before if the keys could not be saved.
   */
  lemma StoredNext(stored: Option<set<string>>, keys: map<string, bool>, w: World, k: string)
    ensures var next := NextStored(stored, keys, w);
            && (!w.saves ==> next == stored)
            && (w.saves ==> next.Some?)
            && (w.saves ==> (k in next.value <==>
                               k in keys && !(w.savesAgain && LostTo(Batch(FiledKeys(stored, keys, w)), w.files, k))))
  {
    var batch := Batch(Fresh(keys, Previous(stored)));
    FailedSpec(batch, w.files, k);
    if stored == Some(keys.Keys) {
      assert Batch([]) == [];
    }
  }

  /** A filing that raised is the key, or its keys joined include it. */
  ghost predicate LostTo(filings: seq<string>, files: string -> bool, k: string) {
    exists b :: b in filings && !files(b) && k in SplitComma(b)
  }

  /** The filings go in the order of their keys. */
  lemma FiledInOrder(stored: Option<set<string>>, keys: map<string, bool>, w: World)
    ensures StrictlySorted(StringLess, FiledKeys(stored, keys, w))
  {
    StringLessOrders();
    NotifiableSorted(keys, SortStrings(keys.Keys - Previous(stored)));
  }

  lemma {:induction false} NotifiableSorted(keys: map<string, bool>, ks: seq<string>)
    requires StrictlySorted(StringLess, ks)
    ensures StrictlySorted(StringLess, Notifiable(keys, ks))
    decreases |ks|
  {
    if ks != [] {
      var init, k := ks[..|ks| - 1], ks[|ks| - 1];
      NotifiableSorted(keys, init);
      forall j | 0 <= j < |Notifiable(keys, init)| ensures StringLess(Notifiable(keys, init)[j], k) {
        NotifiableSpec(keys, init, Notifiable(keys, init)[j]);
      }
    }
  }

  /** The usage of one file, tick by tick. */
  predicate Watched(r: Run, us: seq<Usage>, file: string) {
    |us| == |r.ticks| && Capped(file)
    && forall i :: 0 <= i < |r.ticks| ==> us[i].file == file && us[i].limit > 0 && UsageOf(r.ticks[i].usages, us[i])
  }

  lemma KeyAtFloor(r: Run, us: seq<Usage>, file: string, i: nat)
    requires IsRun(r) && Watched(r, us, file) && i < |r.ticks|
    ensures MemoryKey(file) in r.keys[i] <==> Listed(Previous(r.stored[i]), us[i])
  {
    assert Follows(r.ticks[i], r.stored[i], r.keys[i], r.filed[i], r.stored[i + 1]);
    MemoryKeyCurrent(r.stored[i], r.ticks[i].usages, r.ticks[i].ps, us[i]);
  }

  /** A file is warned about only when it is nearly full. */
  lemma FiledMeansNear(r: Run, us: seq<Usage>, file: string, i: nat)
    requires IsRun(r) && Watched(r, us, file) && i < |r.ticks| && MemoryKey(file) in r.filed[i]
    ensures us[i].used * 100 >= us[i].limit * NEAR_PCT
    ensures MemoryKey(file) in r.keys[i]
  {
    FiledWasNew(r, i, MemoryKey(file));
    KeyAtFloor(r, us, file, i);
  }

  /** Between two warnings about a file there is a tick at which it was below the clearing share. */
  lemma WarnedAgainAfterClearing(r: Run, us: seq<Usage>, file: string, i: nat, j: nat) returns (m: nat)
    requires IsRun(r) && AllSucceeds(r) && Watched(r, us, file) && i < j < |r.ticks|
    requires MemoryKey(file) in r.keys[i] && MemoryKey(file) in r.filed[j]
    ensures i < m < j && us[m].used * 100 < us[m].limit * CLEAR_PCT
  {
    var k := MemoryKey(file);
    FiledWasAbsent(r, j, k);
    m := ClearedBetween(r, us, file, k, i, j - 1);
  }

  /** A key that was current and no longer is left at some tick in between. */
  lemma {:induction false} LeftBetween(keys: seq<map<string, bool>>, k: string, i: nat, j: nat) returns (m: nat)
    requires i <= j < |keys| && k in keys[i] && k !in keys[j]
    ensures i < m <= j && k in keys[m - 1] && k !in keys[m]
    decreases j - i
  {
    if k in keys[i + 1] { m := LeftBetween(keys, k, i + 1, j); } else { m := i + 1; }
  }

  /** A file that was listed and no longer is was below the clearing share when it left. */
  lemma ClearedBetween(r: Run, us: seq<Usage>, file: string, k: string, i: nat, j: nat) returns (m: nat)
    requires IsRun(r) && AllSucceeds(r) && Watched(r, us, file) && i <= j < |r.ticks| && k == MemoryKey(file)
    requires k in r.keys[i] && k !in r.keys[j]
    ensures i < m <= j && us[m].used * 100 < us[m].limit * CLEAR_PCT
  {
    m := LeftBetween(r.keys, k, i, j);
    StillListed(r, us, file, m - 1);
  }

  /** A flagged file leaves the list only below the clearing share. */
  lemma StillListed(r: Run, us: seq<Usage>, file: string, i: nat)
    requires IsRun(r) && AllSucceeds(r) && Watched(r, us, file) && i + 1 < |r.ticks|
    requires MemoryKey(file) in r.keys[i]
    ensures MemoryKey(file) in r.keys[i + 1] || us[i + 1].used * 100 < us[i + 1].limit * CLEAR_PCT
  {
    StoredIsCurrent(r, i);
    KeyAtFloor(r, us, file, i + 1);
  }

  // ---------- failed filings ----------

  lemma {:induction false} FailedSpec(batch: seq<string>, files: string -> bool, k: string)
    ensures k in FailedKeys(batch, files) <==> exists b :: b in batch && !files(b) && k in SplitComma(b)
    decreases |batch|
  {
    if batch != [] {
      var init, last := batch[..|batch| - 1], batch[|batch| - 1];
      FailedSpec(init, files, k);
      assert batch == init + [last];
    }
  }

  /** The filing a fresh key is part of. */
  function FilingOf(fresh_: seq<string>, k: string): string {
    if |fresh_| > 3 then JoinComma(fresh_) else k
  }

  /**
   * With the saves succeeding, a key whose filing raised is forgotten, so that the next tick files
   * it again if it is still current, exactly when the key holds no comma.
   */
  lemma FailedIsForgotten(stored: Option<set<string>>, keys: map<string, bool>, w: World, k: string)
    requires w.saves && w.savesAgain && k in FiledKeys(stored, keys, w)
    requires !w.files(FilingOf(FiledKeys(stored, keys, w), k))
    ensures k !in Previous(NextStored(stored, keys, w)) <==> ',' !in k
  {
    var fresh_ := FiledKeys(stored, keys, w);
    FreshSpec(keys, Previous(stored), k);
    FailsWithItsFiling(fresh_, w.files, k);
  }

  lemma FailsWithItsFiling(fresh_: seq<string>, files: string -> bool, k: string)
    requires k in fresh_ && !files(FilingOf(fresh_, k))
    ensures k in FailedKeys(Batch(fresh_), files) <==> ',' !in k
  {
    var batch := Batch(fresh_);
    FailedSpec(batch, files, k);
    if ',' in k {
      assert forall b :: k !in SplitComma(b);
    } else if |fresh_| > FLOOD_LIMIT {
      KeyComesBack(fresh_, k);
      assert batch[0] == JoinComma(fresh_);
    } else {
      SplitOne(k);
      assert SplitComma(k)[0] == k;
    }
  }

  /** A problem that is alone in the tray. */
  lemma OneProblem(p: Problem)
    ensures CurrentKeys(None, [], [p]) == map[ProblemKey(p) := p.Skill?]
    ensures forall stored :: CurrentKeys(stored, [], [p]) == CurrentKeys(None, [], [p])
  {
    assert [p][..0] == [];
    assert WithProblems(map[], [p]) == map[][ProblemKey(p) := p.Skill?];
  }

  /**
   * A skill whose key holds a comma, alone in the tray: its warning is filed, and when that fails the
   * key stays stored, so as long as nothing else changes no later tick files it again.
   */
  lemma CommaIsNeverRetried(p: Problem, w: World, later: World)
    requires p.Skill? && ',' in ProblemKey(p) && w.saves && !w.files(ProblemKey(p))
    ensures var keys := CurrentKeys(None, [], [p]);
            var stored := NextStored(None, keys, w);
            && FiledKeys(None, keys, w) == [ProblemKey(p)]
            && ProblemKey(p) in Previous(stored)
            && FiledKeys(stored, CurrentKeys(stored, [], [p]), later) == []
  {
    var k, keys := ProblemKey(p), CurrentKeys(None, [], [p]);
    OneProblem(p);
    var fresh_ := Fresh(keys, {});
    OnlyFiled(keys, k);
    FailsWithItsFiling(fresh_, w.files, k);
    var failed := FailedKeys(Batch(fresh_), w.files);
    assert keys.Keys == {k} && k !in failed;
    assert keys.Keys - failed == {k};
  }

  lemma OnlyFiled(keys: map<string, bool>, k: string)
    requires keys == map[k := true]
    ensures Fresh(keys, {}) == [k]
  {
    assert keys.Keys - {} == {k};
    OneSorted(k);
    assert [k][..0] == [] && Notifiable(keys, []) == [];
    assert Notifiable(keys, [k]) == [] + [k];
  }

  lemma OneSorted(k: string)
    ensures SortStrings({k}) == [k]
  {
    StringLessOrders();
    SortedUnique(StringLess, SortStrings({k}), [k]);
  }

  /** A skill in a directory of that name is such a problem. */
  lemma CommaIsNeverRetriedHere(w: World, later: World)
    requires w.saves && !w.files("skill:/a,b:lint")
    ensures var ps := [Skill("", "a,b", "lint")];
            var keys := CurrentKeys(None, [], ps);
            var stored := NextStored(None, keys, w);
            && FiledKeys(None, keys, w) == ["skill:/a,b:lint"]
            && "skill:/a,b:lint" in Previous(stored)
            && FiledKeys(stored, CurrentKeys(stored, [], ps), later) == []
  {
    var p := Skill("", "a,b", "lint");
    assert ProblemKey(p) == "skill:/a,b:lint";
    assert ProblemKey(p)[8] == ',';
    CommaIsNeverRetried(p, w, later);
  }

  /** Forgotten and still current and notifiable means filed again. */
  lemma ForgottenIsRetried(stored: Option<set<string>>, keys: map<string, bool>, w: World, k: string)
    requires w.saves && k !in Previous(stored) && k in keys && keys[k]
    ensures k in FiledKeys(stored, keys, w)
  {
    FreshSpec(keys, Previous(stored), k);
  }

  /** A memory file whose warning could not be filed has to be nearly full again to be retried. */
  lemma RetryNeedsNearAgain(stored: Option<set<string>>, keys: map<string, bool>, w: World, w': World, usages: seq<Usage>, ps: seq<Problem>, u: Usage)
    requires w.saves && w.savesAgain && Capped(u.file) && u.limit > 0 && UsageOf(usages, u)
    requires MemoryKey(u.file) in FiledKeys(stored, keys, w) && !w.files(FilingOf(FiledKeys(stored, keys, w), MemoryKey(u.file)))
    requires w'.saves
    ensures var stored' := NextStored(stored, keys, w);
            MemoryKey(u.file) in FiledKeys(stored', CurrentKeys(stored', usages, ps), w')
            <==> u.used * 100 >= u.limit * NEAR_PCT
  {
    FailedIsForgotten(stored, keys, w, MemoryKey(u.file));
    NoCommaInMemoryKeys(u.file);
    var stored' := NextStored(stored, keys, w);
    MemoryKeyCurrent(stored', usages, ps, u);
    FreshSpec(CurrentKeys(stored', usages, ps), Previous(stored'), MemoryKey(u.file));
  }

  lemma NoCommaInMemoryKeys(file: string)
    requires Capped(file)
    ensures ',' !in MemoryKey(file)
  {
    var prefix := "memory:";
    assert forall i :: 0 <= i < |prefix| ==> prefix[i] != ',';
    assert forall i :: 0 <= i < |file| ==> file[i] != ',';
  }
}
