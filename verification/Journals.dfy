/** Which completed run journals a cleanup offers for deletion. */
module Journals {
  import opened Sorting

  const KEEP_BYTES := 200 * 1024 * 1024
  const SETTLE_SECONDS := 3600.0
  const SECONDS_A_DAY := 86_400

  /** A completed journal: when it was last written, how large it is, where it lies. */
  datatype Journal = Journal(mtime: real, size: nat, path: string)

  /** The order of the tuples `(mtime, size, path)`. */
  predicate Before(a: Journal, b: Journal) {
    || a.mtime < b.mtime
    || (a.mtime == b.mtime && (a.size < b.size || (a.size == b.size && StringLess(a.path, b.path))))
  }

  lemma BeforeOrders()
    ensures StrictTotalOrder(Before)
  {
    forall x ensures !Before(x, x) { StringLessIrreflexive(x.path); }
    forall x, y, z | Before(x, y) && Before(y, z) ensures Before(x, z) {
      if x.mtime == y.mtime == z.mtime && x.size == y.size == z.size { StringLessTransitive(x.path, y.path, z.path); }
    }
    forall x, y ensures x == y || Before(x, y) || Before(y, x) { StringLessTotal(x.path, y.path); }
  }

  /** `completed.sort()`: paths are distinct, so the journals are a set. */
  function Oldest(completed: set<Journal>): (r: seq<Journal>)
    ensures Elements(r) == completed && StrictlySorted(Before, r)
  {
    BeforeOrders();
    SortSet(Before, completed)
  }

  function Total(js: seq<Journal>): nat {
    if js == [] then 0 else js[0].size + Total(js[1..])
  }

  /** How many journals at the old end are past the cutoff. */
  function Aged(js: seq<Journal>, cutoff: real): (n: nat)
    ensures n <= |js|
  {
    if js != [] && js[0].mtime < cutoff then 1 + Aged(js[1..], cutoff) else 0
  }

  lemma {:induction false} AgedSplits(js: seq<Journal>, cutoff: real)
    requires StrictlySorted(Before, js)
    ensures forall i :: 0 <= i < |js| ==> (js[i].mtime < cutoff <==> i < Aged(js, cutoff))
    decreases |js|
  {
    if js != [] {
      if js[0].mtime < cutoff {
        AgedSplits(js[1..], cutoff);
      } else {
        forall i | 0 <= i < |js| ensures js[i].mtime >= cutoff {
          assert i > 0 ==> Before(js[0], js[i]);
        }
      }
    }
  }

  /** Enough is gone, or what is left is too fresh to touch. */
  predicate Enough(js: seq<Journal>, settled: real, n: nat)
    requires n <= |js|
  {
    Total(js[n..]) <= KEEP_BYTES || n == |js| || js[n].mtime >= settled
  }

  /** The journals on one side of a cutoff, in order. */
  method Partition(js: seq<Journal>, cutoff: real) returns (aged: seq<Journal>, kept: seq<Journal>)
    requires StrictlySorted(Before, js)
    ensures aged == js[..Aged(js, cutoff)] && kept == js[Aged(js, cutoff)..]
  {
    AgedSplits(js, cutoff);
    ghost var n := Aged(js, cutoff);
    aged, kept := [], [];
    for i := 0 to |js|
      invariant i <= n ==> aged == js[..i] && kept == []
      invariant i > n ==> aged == js[..n] && kept == js[n..i]
    {
      if js[i].mtime < cutoff {
        aged := aged + [js[i]];
      } else {
        kept := kept + [js[i]];
      }
    }
  }

  method SumSizes(js: seq<Journal>) returns (total: nat)
    ensures total == Total(js)
  {
    total := 0;
    for i := 0 to |js|
      invariant total + Total(js[i..]) == Total(js)
    {
      assert js[i..][1..] == js[i + 1..];
      total := total + js[i].size;
    }
    assert js[|js|..] == [];
  }

  /** The least prefix that takes the aged journals and leaves enough gone. */
  predicate Selects(js: seq<Journal>, cutoff: real, settled: real, n: nat) {
    && Aged(js, cutoff) <= n <= |js| && Enough(js, settled, n)
    && forall m :: Aged(js, cutoff) <= m < n ==> !Enough(js, settled, m)
  }

  /** `_run_journal_candidates`, once the completed journals are known. */
  method Candidates(completed: set<Journal>, now: real, keepDays: int, sizeCap: bool) returns (selected: seq<Journal>)
    ensures var js, cutoff, settled := Oldest(completed), now - (keepDays * 86_400) as real, now - 3600.0;
            && selected <= js
            && if sizeCap then Selects(js, cutoff, settled, |selected|) else |selected| == Aged(js, cutoff)
  {
    var js := Oldest(completed);
    selected := Choose(js, now - (keepDays * SECONDS_A_DAY) as real, now - SETTLE_SECONDS, sizeCap);
  }

  method Choose(js: seq<Journal>, cutoff: real, settled: real, sizeCap: bool) returns (selected: seq<Journal>)
    requires StrictlySorted(Before, js)
    ensures selected <= js
    ensures if sizeCap then Selects(js, cutoff, settled, |selected|) else |selected| == Aged(js, cutoff)
  {
    var aged, kept := Partition(js, cutoff);
    if !sizeCap {
      return aged;
    }
    selected := Greedy(js, aged, kept, settled);
  }

  /** The size loop: the oldest go until enough is gone. */
  method Greedy(js: seq<Journal>, aged: seq<Journal>, kept: seq<Journal>, settled: real) returns (selected: seq<Journal>)
    requires js == aged + kept
    ensures |selected| >= |aged| && selected <= js && Enough(js, settled, |selected|)
    ensures forall m :: |aged| <= m < |selected| ==> !Enough(js, settled, m)
  {
    ghost var n := |aged|;
    selected := aged;
    var total := SumSizes(kept);
    assert js[n..] == kept;
    for i := 0 to |kept|
      invariant selected == js[..n + i] && total == Total(js[n + i..])
      invariant forall m :: n <= m < n + i ==> !Enough(js, settled, m)
    {
      if total <= KEEP_BYTES || kept[i].mtime >= settled {
        return;
      }
      assert js[n + i] == kept[i];
      assert js[n + i..][1..] == js[n + i + 1..];
      selected := selected + [kept[i]];
      total := total - kept[i].size;
    }
  }

  // ---------- what that comes to ----------

  /** The selection is determined by the journals and the clock. */
  lemma SelectionIsUnique(js: seq<Journal>, cutoff: real, settled: real, n: nat, k: nat)
    requires Selects(js, cutoff, settled, n) && Selects(js, cutoff, settled, k)
    ensures n == k
  {
  }

  /**
   * After deleting the selection no aged journal is left, and what is left fits the cap or lies
   * wholly inside the settle window.
   */
  lemma AfterDeletion(js: seq<Journal>, cutoff: real, settled: real, n: nat)
    requires StrictlySorted(Before, js) && Selects(js, cutoff, settled, n)
    ensures forall j :: j in js[n..] ==> j.mtime >= cutoff
    ensures Total(js[n..]) <= 209_715_200 || forall j :: j in js[n..] ==> j.mtime >= settled
  {
    AgedSplits(js, cutoff);
    if Total(js[n..]) > KEEP_BYTES && n < |js| {
      forall i | n <= i < |js| ensures js[i].mtime >= settled {
        assert i > n ==> Before(js[n], js[i]);
      }
    }
  }

  /** Putting the last size-selected journal back would exceed the cap, and it is old enough to go. */
  lemma SelectionIsMinimal(js: seq<Journal>, cutoff: real, settled: real, n: nat)
    requires Selects(js, cutoff, settled, n) && n > Aged(js, cutoff)
    ensures Total([js[n - 1]] + js[n..]) > 209_715_200 && js[n - 1].mtime < settled
  {
    assert !Enough(js, settled, n - 1);
    assert [js[n - 1]] + js[n..] == js[n - 1..];
  }

  /** Nothing newer is selected while something older is left. */
  lemma OldestFirst(js: seq<Journal>, n: nat, a: Journal, b: Journal)
    requires StrictlySorted(Before, js) && n <= |js| && a in js[..n] && b in js[n..]
    ensures Before(a, b) && a.mtime <= b.mtime
  {
    var i :| 0 <= i < n && js[i] == a;
    var k :| 0 <= k < |js| - n && js[n..][k] == b;
    assert js[n + k] == b;
  }
}
