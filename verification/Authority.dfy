/** The authority a workgroup turn runs under: sanitising what was stored, folding several origins. */
module Authority {
  import opened Common
  import opened Sorting
  import opened Text

  const MAX_ALLOW := 256
  const MAX_NAME := 128

  // ---------- authorities ----------

  datatype Fence = Allow | Member | Peer

  /** A sanitised authority; `allow` is the list of permitted tools, absent when not restricted. */
  datatype Authority = Authority(fence: Fence, allow: Option<seq<string>>)

  const FAIL_CLOSED := Authority(Peer, None)

  /** A decoded JSON value, as far as `sanitize` looks: list items that are no strings are `None`. */
  datatype RawList = NotAList | Items(items: seq<Option<string>>)
  datatype Raw = NotADict | Dict(fence: Option<string>, allow: Option<RawList>)

  predicate IsName(n: string) { Trimmed(n) && 0 < |n| <= MAX_NAME }

  /** What `sanitize` produces and every fold keeps. */
  predicate WellFormed(a: Authority) {
    && (a.fence == Allow ==> a.allow.Some?)
    && (a.allow.Some? ==>
          && StrictlySorted(StringLess, a.allow.value) && |a.allow.value| <= MAX_ALLOW
          && forall i :: 0 <= i < |a.allow.value| ==> IsName(a.allow.value[i]))
  }

  // ---------- sanitising ----------

  /** The name a list item stands for, if it is a string of acceptable length. */
  function NameOf(item: Option<string>): set<string> {
    if item.Some? && 0 < |Strip(item.value)| <= MAX_NAME then {Strip(item.value)} else {}
  }

  function NameSet(items: seq<Option<string>>): set<string> {
    if items == [] then {} else NameSet(items[..|items| - 1]) + NameOf(items[|items| - 1])
  }

  /** `_names` */
  function Names(items: seq<Option<string>>): seq<string> {
    var sorted := SortStrings(NameSet(items));
    if |sorted| <= MAX_ALLOW then sorted else sorted[..MAX_ALLOW]
  }

  function FenceOf(s: string): Option<Fence> {
    if s == "member" then Some(Member) else if s == "peer" then Some(Peer) else if s == "allow" then Some(Allow) else None
  }

  /** `sanitize` */
  function Sanitize(raw: Raw): Authority {
    if raw.NotADict? || raw.fence.None? || FenceOf(raw.fence.value).None? then FAIL_CLOSED
    else
      var fence := FenceOf(raw.fence.value).value;
      if fence == Allow || raw.allow.Some? then
        match raw.allow
        case Some(Items(items)) => Authority(fence, Some(Names(items)))
        case _ => if fence != Allow then Authority(Peer, Some([])) else FAIL_CLOSED
      else Authority(fence, None)
  }

  function FenceText(f: Fence): string {
    match f
    case Allow => "allow"
    case Member => "member"
    case Peer => "peer"
  }

  function Present(names: seq<string>): (r: seq<Option<string>>)
    ensures |r| == |names| && forall i :: 0 <= i < |names| ==> r[i] == Some(names[i])
  {
    seq(|names|, i requires 0 <= i < |names| => Some(names[i]))
  }

  /** `encode`, up to the JSON text, which reads back as it was written. */
  function Encode(a: Authority): Raw {
    Dict(Some(FenceText(a.fence)), match a.allow case None => None case Some(names) => Some(Items(Present(names))))
  }

  lemma {:induction false} NameSetIsNames(items: seq<Option<string>>)
    ensures forall n :: n in NameSet(items) ==> IsName(n)
    decreases |items|
  {
    if items != [] {
      NameSetIsNames(items[..|items| - 1]);
      if items[|items| - 1].Some? { StripTrims(items[|items| - 1].value); }
    }
  }

  lemma NamesAreNames(items: seq<Option<string>>)
    ensures StrictlySorted(StringLess, Names(items)) && |Names(items)| <= MAX_ALLOW
    ensures forall i :: 0 <= i < |Names(items)| ==> IsName(Names(items)[i])
  {
    NameSetIsNames(items);
    var sorted := SortStrings(NameSet(items));
    forall i | 0 <= i < |sorted| ensures IsName(sorted[i]) {
      assert sorted[i] in Elements(sorted);
    }
  }

  lemma {:induction false} NameSetIsListed(items: seq<Option<string>>, n: string)
    ensures n in NameSet(items) <==> exists i :: 0 <= i < |items| && n in NameOf(items[i])
    decreases |items|
  {
    if items != [] {
      NameSetIsListed(items[..|items| - 1], n);
      assert items == items[..|items| - 1] + [items[|items| - 1]];
    }
  }

  /** Some string of the list is that name, with white space around it at most. */
  ghost predicate Lists(items: seq<Option<string>>, n: string) {
    0 < |n| <= 128 && exists s :: Some(s) in items && Strip(s) == n
  }

  lemma NameSetIsLists(items: seq<Option<string>>, n: string)
    ensures n in NameSet(items) <==> Lists(items, n)
  {
    NameSetIsListed(items, n);
    if Lists(items, n) {
      var s :| Some(s) in items && Strip(s) == n;
      var i :| 0 <= i < |items| && items[i] == Some(s);
      assert n in NameOf(items[i]);
    }
    if i :| 0 <= i < |items| && n in NameOf(items[i]) {
      assert Some(items[i].value) in items && Strip(items[i].value) == n;
    }
  }

  /** The names kept are in order and listed; a listed one is dropped only behind 256 smaller ones. */
  lemma NamesAreLeast(items: seq<Option<string>>, n: string)
    ensures StrictlySorted(StringLess, Names(items))
    ensures n in Names(items) ==> Lists(items, n)
    ensures Lists(items, n) && n !in Names(items) ==>
              |Names(items)| == 256 && forall i :: 0 <= i < 256 ==> StringLess(Names(items)[i], n)
  {
    NameSetIsLists(items, n);
    var sorted := SortStrings(NameSet(items));
    assert n in Elements(sorted) <==> n in NameSet(items);
    assert forall i :: 0 <= i < |Names(items)| ==> Names(items)[i] == sorted[i];
  }

  /** The fence a stored value names. */
  predicate Fenced(raw: Raw, f: Fence) {
    raw.Dict? && raw.fence == Some(match f case Allow => "allow" case Member => "member" case Peer => "peer")
  }

  /**
   * What comes out: a value that names no fence is fenced like a peer. One that names a fence keeps it, with
   * the names of its list if it has one. A list that is none permits nothing, behind the fence of a peer;
   * a value that only restricts by a list, and has none, is fenced like a peer.
   */
  lemma SanitizeReads(raw: Raw)
    ensures (forall f :: !Fenced(raw, f)) ==> Sanitize(raw) == Authority(Peer, None)
    ensures forall f :: Fenced(raw, f) ==>
              match raw.allow
              case Some(Items(items)) => Sanitize(raw) == Authority(f, Some(Names(items)))
              case Some(NotAList) => Sanitize(raw) == Authority(Peer, if f == Allow then None else Some([]))
              case None => Sanitize(raw) == if f == Allow then Authority(Peer, None) else Authority(f, None)
  {
    assert Fenced(raw, Allow) || Fenced(raw, Member) || Fenced(raw, Peer) || forall f :: !Fenced(raw, f);
  }

  /** No value comes out more permissive than it says: with a laxer fence, or with names it does not list. */
  lemma SanitizeNeverWidens(raw: Raw)
    ensures (forall f :: !Fenced(raw, f)) ==> Sanitize(raw).fence == Peer
    ensures forall f :: Fenced(raw, f) ==> Sanitize(raw).fence == f || Sanitize(raw).fence == Peer
    ensures raw.Dict? && raw.allow.Some? ==> Sanitize(raw).allow.Some? || Sanitize(raw).fence == Peer
    ensures Sanitize(raw).allow.Some? ==>
              forall n :: n in Sanitize(raw).allow.value ==>
                raw.Dict? && raw.allow.Some? && raw.allow.value.Items? && Lists(raw.allow.value.items, n)
  {
    SanitizeReads(raw);
    if Sanitize(raw).allow.Some? {
      forall n | n in Sanitize(raw).allow.value
        ensures raw.Dict? && raw.allow.Some? && raw.allow.value.Items? && Lists(raw.allow.value.items, n)
      {
        NamesAreLeast(raw.allow.value.items, n);
      }
    }
  }

  /** Whatever was stored, what comes out is well formed. */
  lemma SanitizeIsWellFormed(raw: Raw)
    ensures WellFormed(Sanitize(raw))
  {
    if raw.Dict? && raw.allow.Some? && raw.allow.value.Items? {
      NamesAreNames(raw.allow.value.items);
    }
  }

  lemma {:induction false} NameSetOfNames(names: seq<string>)
    requires forall i :: 0 <= i < |names| ==> IsName(names[i])
    ensures NameSet(Present(names)) == Elements(names)
    decreases |names|
  {
    if names != [] {
      var n := |names| - 1;
      NameSetOfNames(names[..n]);
      PresentSnoc(names);
    }
  }

  lemma PresentSnoc(names: seq<string>)
    requires names != []
    ensures Present(names) == Present(names[..|names| - 1]) + [Some(names[|names| - 1])]
  {
  }

  /** Well-formed authorities survive being written and read back, and being sanitised again. */
  lemma DecodeEncode(a: Authority)
    requires WellFormed(a)
    ensures Sanitize(Encode(a)) == a
  {
    FenceReads(a.fence);
    if a.allow.Some? { NamesComeBack(a.allow.value); }
  }

  lemma FenceReads(f: Fence)
    ensures FenceOf(FenceText(f)) == Some(f)
  {
  }

  /** Sorted, acceptable names are what their list decodes to. */
  lemma NamesComeBack(names: seq<string>)
    requires StrictlySorted(StringLess, names) && |names| <= MAX_ALLOW && forall i :: 0 <= i < |names| ==> IsName(names[i])
    ensures Names(Present(names)) == names
  {
    NameSetOfNames(names);
    StringLessOrders();
    SortedUnique(StringLess, SortStrings(Elements(names)), names);
  }

  // ---------- the order of restriction ----------

  function Rank(f: Fence): nat {
    match f
    case Allow => 0
    case Member => 1
    case Peer => 2
  }

  /** `a` permits nothing that `b` forbids. */
  predicate Restricts(a: Authority, b: Authority) {
    && Rank(a.fence) >= Rank(b.fence)
    && (b.allow.Some? ==> a.allow.Some? && Elements(a.allow.value) <= Elements(b.allow.value))
  }

  lemma RestrictsAntisymmetric(a: Authority, b: Authority)
    requires WellFormed(a) && WellFormed(b) && Restricts(a, b) && Restricts(b, a)
    ensures a == b
  {
    if a.allow.Some? {
      StringLessOrders();
      SortedUnique(StringLess, a.allow.value, b.allow.value);
    }
  }

  // ---------- folding ----------

  function Meet(a: Authority, b: Authority): Authority {
    Authority(if Rank(a.fence) >= Rank(b.fence) then a.fence else b.fence,
              if a.allow.None? then b.allow
              else if b.allow.None? then a.allow
              else Some(SortStrings(Elements(a.allow.value) * Elements(b.allow.value))))
  }

  function MeetAll(a: Option<Authority>, b: Option<Authority>): Option<Authority> {
    if a.None? then b else if b.None? then a else Some(Meet(a.value, b.value))
  }

  /** The reference for `fold`: origins met one after the other, absent ones skipped. */
  function Folded(origins: seq<Option<Authority>>): Option<Authority> {
    if origins == [] then None else MeetAll(Folded(origins[..|origins| - 1]), origins[|origins| - 1])
  }

  predicate AllWellFormed(origins: seq<Option<Authority>>) {
    forall i :: 0 <= i < |origins| && origins[i].Some? ==> WellFormed(origins[i].value)
  }

  lemma MeetIsWellFormed(a: Authority, b: Authority)
    requires WellFormed(a) && WellFormed(b)
    ensures WellFormed(Meet(a, b))
  {
    if a.allow.Some? && b.allow.Some? {
      var x, y := a.allow.value, b.allow.value;
      var both := SortStrings(Elements(x) * Elements(y));
      StringLessOrders();
      SortedDistinct(StringLess, both);
      SortedDistinct(StringLess, x);
      SubsetIsSmaller(Elements(both), Elements(x));
      forall i | 0 <= i < |both| ensures IsName(both[i]) {
        assert both[i] in Elements(both);
      }
    }
  }

  lemma {:induction false} SubsetIsSmaller<T>(a: set<T>, b: set<T>)
    requires a <= b
    ensures |a| <= |b|
  {
    assert b == a + (b - a);
  }

  ghost predicate Below(c: Authority, origins: seq<Option<Authority>>) {
    forall i :: 0 <= i < |origins| && origins[i].Some? ==> Restricts(c, origins[i].value)
  }

  predicate AllAbsent(origins: seq<Option<Authority>>) {
    forall i :: 0 <= i < |origins| ==> origins[i].None?
  }

  /**
   * A fold is the meet of its origins: absent only without origins, at least as restrictive as
   * each, and no more restrictive than that takes.
   */
  lemma {:induction false} FoldIsMeet(origins: seq<Option<Authority>>)
    requires AllWellFormed(origins)
    ensures Folded(origins).None? <==> AllAbsent(origins)
    ensures Folded(origins).Some? ==>
              && WellFormed(Folded(origins).value) && Below(Folded(origins).value, origins)
              && forall c :: Below(c, origins) ==> Restricts(c, Folded(origins).value)
    decreases |origins|
  {
    if origins != [] {
      var init, last := origins[..|origins| - 1], origins[|origins| - 1];
      FoldIsMeet(init);
      FoldSnoc(init, last);
      assert init + [last] == origins;
    }
  }

  lemma FoldSnoc(init: seq<Option<Authority>>, last: Option<Authority>)
    requires Folded(init).None? <==> AllAbsent(init)
    requires last.Some? ==> WellFormed(last.value)
    requires Folded(init).Some? ==>
               && WellFormed(Folded(init).value) && Below(Folded(init).value, init)
               && forall c :: Below(c, init) ==> Restricts(c, Folded(init).value)
    ensures var f := MeetAll(Folded(init), last);
            && (f.None? <==> AllAbsent(init + [last]))
            && (f.Some? ==>
                  && WellFormed(f.value) && Below(f.value, init + [last])
                  && forall c :: Below(c, init + [last]) ==> Restricts(c, f.value))
  {
    var os := init + [last];
    assert os[|init|] == last;
    assert forall i :: 0 <= i < |init| ==> os[i] == init[i];
    var f := MeetAll(Folded(init), last);
    if Folded(init).Some? && last.Some? {
      MeetIsWellFormed(Folded(init).value, last.value);
      forall c | Below(c, os) ensures Restricts(c, f.value) {
        BelowSplit(c, init, last);
      }
      forall i | 0 <= i < |os| && os[i].Some? ensures Restricts(f.value, os[i].value) {
        if i < |init| { RestrictsTransitive(f.value, Folded(init).value, init[i].value); }
      }
    } else if Folded(init).Some? {
      forall c | Below(c, os) ensures Restricts(c, f.value) { BelowSplit(c, init, last); }
    } else if last.Some? {
      forall c | Below(c, os) ensures Restricts(c, f.value) { BelowSplit(c, init, last); }
    }
  }

  lemma BelowSplit(c: Authority, init: seq<Option<Authority>>, last: Option<Authority>)
    requires Below(c, init + [last])
    ensures Below(c, init) && (last.Some? ==> Restricts(c, last.value))
  {
    var os := init + [last];
    assert os[|init|] == last;
    assert forall i :: 0 <= i < |init| ==> os[i] == init[i];
  }

  lemma RestrictsTransitive(a: Authority, b: Authority, c: Authority)
    requires Restricts(a, b) && Restricts(b, c)
    ensures Restricts(a, c)
  {
  }

  /** Order and repetition of the origins do not matter. */
  lemma FoldIgnoresOrder(xs: seq<Option<Authority>>, ys: seq<Option<Authority>>)
    requires AllWellFormed(xs) && AllWellFormed(ys)
    requires forall a :: Some(a) in xs <==> Some(a) in ys
    ensures Folded(xs) == Folded(ys)
  {
    FoldIsMeet(xs);
    FoldIsMeet(ys);
    if Folded(xs).Some? && Folded(ys).Some? {
      RestrictsAntisymmetric(Folded(xs).value, Folded(ys).value);
    }
  }

  /** Folding in groups, or folding a fold again, changes nothing. */
  lemma FoldAssociates(xs: seq<Option<Authority>>, ys: seq<Option<Authority>>)
    requires AllWellFormed(xs) && AllWellFormed(ys)
    ensures Folded(xs + ys) == Folded([Folded(xs), Folded(ys)])
    ensures Folded([Folded(xs)]) == Folded(xs)
    ensures Folded([Folded(xs), Folded(xs)]) == Folded(xs)
  {
    FoldConcat(xs, ys);
    FoldPair(Folded(xs), Folded(ys));
    FoldPair(Folded(xs), Folded(xs));
    FoldIsMeet(xs);
    if Folded(xs).Some? { MeetIdempotent(Folded(xs).value); }
  }

  lemma FoldPair(a: Option<Authority>, b: Option<Authority>)
    ensures Folded([a, b]) == MeetAll(a, b) && Folded([a]) == a
  {
    assert [a, b][..1] == [a] && [a][..0] == [];
    assert [a, b][1] == b && [a][0] == a;
    assert Folded([a]) == MeetAll(Folded([]), a) == a;
  }

  lemma MeetIdempotent(a: Authority)
    requires WellFormed(a)
    ensures Meet(a, a) == a
  {
    MeetIsWellFormed(a, a);
    RestrictsAntisymmetric(Meet(a, a), a);
  }

  lemma MeetAssociates(a: Option<Authority>, b: Option<Authority>, c: Option<Authority>)
    requires a.Some? ==> WellFormed(a.value)
    requires b.Some? ==> WellFormed(b.value)
    requires c.Some? ==> WellFormed(c.value)
    ensures MeetAll(MeetAll(a, b), c) == MeetAll(a, MeetAll(b, c))
  {
    if a.Some? && b.Some? && c.Some? {
      var l, r := Meet(Meet(a.value, b.value), c.value), Meet(a.value, Meet(b.value, c.value));
      MeetIsWellFormed(a.value, b.value);
      MeetIsWellFormed(b.value, c.value);
      MeetIsWellFormed(Meet(a.value, b.value), c.value);
      MeetIsWellFormed(a.value, Meet(b.value, c.value));
      RestrictsAntisymmetric(l, r);
    }
  }

  lemma {:induction false} FoldConcat(xs: seq<Option<Authority>>, ys: seq<Option<Authority>>)
    requires AllWellFormed(xs) && AllWellFormed(ys)
    ensures Folded(xs + ys) == MeetAll(Folded(xs), Folded(ys))
    decreases |ys|
  {
    if ys == [] {
      assert xs + ys == xs;
    } else {
      var init, last := ys[..|ys| - 1], ys[|ys| - 1];
      assert (xs + ys)[..|xs + ys| - 1] == xs + init;
      FoldConcat(xs, init);
      FoldIsMeet(xs);
      FoldIsMeet(init);
      MeetAssociates(Folded(xs), Folded(init), last);
    }
  }

  /** Some origin has that fence. */
  ghost predicate HasFence(origins: seq<Option<Authority>>, f: Fence) {
    exists a :: Some(a) in origins && a.fence == f
  }

  /**
   * The fold, read off its origins: fenced like a peer if one of them is, else like a member if one is; and
   * of the tools exactly those permitted that every list permits, once there is a list.
   */
  lemma FoldReads(origins: seq<Option<Authority>>, n: string)
    requires AllWellFormed(origins) && Folded(origins).Some?
    ensures var f := Folded(origins).value;
            && f.fence == (if HasFence(origins, Peer) then Peer else if HasFence(origins, Member) then Member else Allow)
            && (f.allow.Some? <==> exists a :: Some(a) in origins && a.allow.Some?)
            && (f.allow.Some? ==>
                  (n in f.allow.value <==> forall a :: Some(a) in origins && a.allow.Some? ==> n in a.allow.value))
  {
    var f := Folded(origins).value;
    FoldIsMeet(origins);
    FenceIsSome(origins);
    forall a | Some(a) in origins ensures Restricts(f, a) {
      var i :| 0 <= i < |origins| && origins[i] == Some(a);
    }
    if f.allow.Some? {
      ListIsSome(origins);
      if forall a :: Some(a) in origins && a.allow.Some? ==> n in a.allow.value {
        NameIsKept(origins, n);
      }
      assert n in Elements(f.allow.value) <==> n in f.allow.value;
      forall a | Some(a) in origins && a.allow.Some? ensures n in f.allow.value ==> n in a.allow.value {
        assert n in Elements(a.allow.value) <==> n in a.allow.value;
      }
    }
  }

  lemma {:induction false} FenceIsSome(origins: seq<Option<Authority>>)
    requires Folded(origins).Some?
    ensures HasFence(origins, Folded(origins).value.fence)
    decreases |origins|
  {
    var init, last := origins[..|origins| - 1], origins[|origins| - 1];
    assert origins == init + [last];
    assert forall o :: o in origins <==> o in init || o == last;
    if Folded(init).Some? { FenceIsSome(init); }
  }

  lemma {:induction false} ListIsSome(origins: seq<Option<Authority>>)
    requires Folded(origins).Some? && Folded(origins).value.allow.Some?
    ensures exists a :: Some(a) in origins && a.allow.Some?
    decreases |origins|
  {
    var init, last := origins[..|origins| - 1], origins[|origins| - 1];
    assert origins == init + [last];
    assert forall o :: o in origins <==> o in init || o == last;
    if Folded(init).Some? && Folded(init).value.allow.Some? { ListIsSome(init); }
  }

  /** A name every list holds is not lost. */
  lemma {:induction false} NameIsKept(origins: seq<Option<Authority>>, n: string)
    requires Folded(origins).Some? && Folded(origins).value.allow.Some?
    requires forall a :: Some(a) in origins && a.allow.Some? ==> n in a.allow.value
    ensures n in Folded(origins).value.allow.value
    decreases |origins|
  {
    var init, last := origins[..|origins| - 1], origins[|origins| - 1];
    assert origins == init + [last];
    assert forall o :: o in origins <==> o in init || o == last;
    if Folded(init).Some? && Folded(init).value.allow.Some? { NameIsKept(init, n); }
    if last.Some? && last.value.allow.Some? && Folded(init).Some? && Folded(init).value.allow.Some? {
      var x, y := Folded(init).value.allow.value, last.value.allow.value;
      assert n in Elements(x) * Elements(y);
      assert n in Elements(SortStrings(Elements(x) * Elements(y)));
    }
  }

  // ---------- the loop ----------

  /** `set.intersection(*lists)` */
  function Intersection(lists: seq<set<string>>): set<string>
    requires lists != []
  {
    if |lists| == 1 then lists[0] else Intersection(lists[..|lists| - 1]) * lists[|lists| - 1]
  }

  function Strictest(fences: set<Fence>): Fence {
    if Peer in fences then Peer else if Member in fences then Member else Allow
  }

  /** `fold` */
  method Fold(origins: seq<Option<Authority>>) returns (r: Option<Authority>)
    requires AllWellFormed(origins)
    ensures r == Folded(origins)
  {
    var fences: set<Fence> := {};
    var lists: seq<set<string>> := [];
    for i := 0 to |origins|
      invariant Gathered(origins[..i], fences, lists)
    {
      var origin := origins[i];
      GatheredNext(origins, i, fences, lists);
      if origin.None? {
        continue;
      }
      fences := fences + {origin.value.fence};
      if origin.value.allow.Some? {
        lists := lists + [Elements(origin.value.allow.value)];
      }
    }
    assert origins[..|origins|] == origins;
    if fences == {} {
      return None;
    }
    var fence := Strictest(fences);
    if lists == [] {
      return Some(Authority(fence, None));
    }
    GatheredNames(origins, fences, lists);
    r := Some(Authority(fence, Some(SortStrings(Intersection(lists)))));
  }

  /** Sorting what the lists share gives the names of the fold. */
  lemma GatheredNames(origins: seq<Option<Authority>>, fences: set<Fence>, lists: seq<set<string>>)
    requires AllWellFormed(origins) && Gathered(origins, fences, lists) && fences != {} && lists != []
    ensures Folded(origins).Some? && Folded(origins).value.allow == Some(SortStrings(Intersection(lists)))
  {
    FoldIsMeet(origins);
    StringLessOrders();
    SortedUnique(StringLess, SortStrings(Intersection(lists)), Folded(origins).value.allow.value);
  }

  /** One more origin. */
  lemma GatheredNext(origins: seq<Option<Authority>>, i: nat, fences: set<Fence>, lists: seq<set<string>>)
    requires AllWellFormed(origins) && i < |origins| && Gathered(origins[..i], fences, lists)
    ensures var origin := origins[i];
            Gathered(origins[..i + 1],
                     if origin.None? then fences else fences + {origin.value.fence},
                     if origin.None? || origin.value.allow.None? then lists else lists + [Elements(origin.value.allow.value)])
  {
    assert origins[..i + 1][..i] == origins[..i];
    assert origins[..i] + [origins[i]] == origins[..i + 1];
  }

  /** What the loop has collected stands for the fold so far. */
  predicate Gathered(origins: seq<Option<Authority>>, fences: set<Fence>, lists: seq<set<string>>) {
    match Folded(origins)
    case None => fences == {} && lists == []
    case Some(f) =>
      && fences != {} && f.fence == Strictest(fences)
      && (f.allow.None? <==> lists == [])
      && (f.allow.Some? ==> lists != [] && Elements(f.allow.value) == Intersection(lists))
  }
}
