/** Assembling streamed tool-call fragments into whole calls. */
module ToolCalls {
  import opened Chunks
  import opened Sorting

  datatype Entry = Entry(id: string, name: string, arguments: string)
  type Accum = map<int, Entry>

  const EMPTY := Entry("", "", "")

  /** One delta folded into its entry: the last id wins, name and arguments concatenate. */
  function Absorb(e: Entry, f: Fragment): Entry {
    Entry(if f.id != "" then f.id else e.id, e.name + f.name, e.arguments + f.arguments)
  }

  function Add(acc: Accum, f: Fragment): Accum {
    acc[f.index := Absorb(if f.index in acc then acc[f.index] else EMPTY, f)]
  }

  function AddAll(acc: Accum, fs: seq<Fragment>): Accum {
    if fs == [] then acc else Add(AddAll(acc, fs[..|fs| - 1]), fs[|fs| - 1])
  }

  /** The accumulator side of `_normalize_chunk`. */
  method AbsorbChunk(c: Chunk, acc: Accum) returns (acc': Accum)
    ensures acc' == if c.hasChoices then AddAll(acc, c.calls) else acc
  {
    acc' := acc;
    if c.hasChoices {
      for i := 0 to |c.calls|
        invariant acc' == AddAll(acc, c.calls[..i])
      {
        var f := c.calls[i];
        assert c.calls[..i + 1][..i] == c.calls[..i];
        var entry := if f.index in acc' then acc'[f.index] else EMPTY;
        if f.id != "" {
          entry := entry.(id := f.id);
        }
        entry := entry.(name := entry.name + f.name, arguments := entry.arguments + f.arguments);
        acc' := acc'[f.index := entry];
      }
      assert c.calls[..|c.calls|] == c.calls;
    }
  }

  /** The fragments sent for call `k`, in order. */
  function Only(fs: seq<Fragment>, k: int): seq<Fragment> {
    if fs == [] then []
    else Only(fs[..|fs| - 1], k) + if fs[|fs| - 1].index == k then [fs[|fs| - 1]] else []
  }

  function Whole(fs: seq<Fragment>): Entry {
    if fs == [] then EMPTY else Absorb(Whole(fs[..|fs| - 1]), fs[|fs| - 1])
  }

  /** Whether some fragment names index `k`. */
  predicate Mentions(fs: seq<Fragment>, k: int) {
    exists i :: 0 <= i < |fs| && fs[i].index == k
  }

  /** The calls of a finished attempt, by ascending index. */
  function FinalCalls(acc: Accum): (calls: seq<Entry>)
    ensures |calls| == |Order(acc)|
    ensures forall i :: 0 <= i < |calls| ==> Order(acc)[i] in acc && calls[i] == acc[Order(acc)[i]]
  {
    var order := Order(acc);
    assert forall i :: 0 <= i < |order| ==> order[i] in Elements(order);
    seq(|order|, i requires 0 <= i < |order| => acc[order[i]])
  }

  function Order(acc: Accum): (order: seq<int>)
    ensures Elements(order) == acc.Keys && StrictlySorted(IntLess, order)
  {
    SortSet(IntLess, acc.Keys)
  }

  /** Each entry is the whole of its own index's fragments, whatever came in between. */
  lemma {:induction false} EntryIsItsFragments(fs: seq<Fragment>, k: int)
    ensures k in AddAll(map[], fs) <==> Mentions(fs, k)
    ensures k in AddAll(map[], fs) ==> AddAll(map[], fs)[k] == Whole(Only(fs, k))
    ensures k !in AddAll(map[], fs) ==> Only(fs, k) == []
  {
    if fs != [] {
      var init, last := fs[..|fs| - 1], fs[|fs| - 1];
      EntryIsItsFragments(init, k);
      assert Mentions(fs, k) <==> Mentions(init, k) || last.index == k by {
        if Mentions(init, k) {
          var i :| 0 <= i < |init| && init[i].index == k;
          assert fs[i].index == k;
        }
      }
      if last.index == k {
        assert Only(fs, k) == Only(init, k) + [last];
        assert Only(fs, k)[..|Only(fs, k)| - 1] == Only(init, k);
      } else {
        assert Only(fs, k) == Only(init, k);
      }
    }
  }

  /** The arguments of a whole call are its fragments' arguments, concatenated; likewise the name. */
  function Arguments(fs: seq<Fragment>): string {
    if fs == [] then "" else Arguments(fs[..|fs| - 1]) + fs[|fs| - 1].arguments
  }

  function Name(fs: seq<Fragment>): string {
    if fs == [] then "" else Name(fs[..|fs| - 1]) + fs[|fs| - 1].name
  }

  lemma {:induction false} WholeConcatenates(fs: seq<Fragment>)
    ensures Whole(fs).arguments == Arguments(fs)
    ensures Whole(fs).name == Name(fs)
    ensures Whole(fs).id == "" <==> forall i :: 0 <= i < |fs| ==> fs[i].id == ""
  {
    if fs != [] {
      WholeConcatenates(fs[..|fs| - 1]);
      var init := fs[..|fs| - 1];
      assert forall i :: 0 <= i < |init| ==> init[i] == fs[i];
    }
  }

  /** Of the ids sent for a call the last one counts. */
  lemma {:induction false} LastIdWins(fs: seq<Fragment>, i: nat)
    requires i < |fs| && fs[i].id != "" && forall j :: i < j < |fs| ==> fs[j].id == ""
    ensures Whole(fs).id == fs[i].id
    decreases |fs|
  {
    if i < |fs| - 1 {
      var init := fs[..|fs| - 1];
      assert init[i] == fs[i] && forall j :: i < j < |init| ==> init[j] == fs[j];
      LastIdWins(init, i);
    }
  }

  /** The calls, and their order, do not depend on how fragments of different calls interleave. */
  lemma InterleavingIrrelevant(fs: seq<Fragment>, gs: seq<Fragment>)
    requires forall k :: Only(fs, k) == Only(gs, k)
    ensures FinalCalls(AddAll(map[], fs)) == FinalCalls(AddAll(map[], gs))
  {
    var a, b := AddAll(map[], fs), AddAll(map[], gs);
    forall k ensures (k in a <==> k in b) && (k in a ==> a[k] == b[k]) {
      EntryIsItsFragments(fs, k);
      EntryIsItsFragments(gs, k);
      assert Only(fs, k) == Only(gs, k);
      MentionedIffSent(fs, k);
      MentionedIffSent(gs, k);
    }
    assert a == b;
  }

  lemma {:induction false} MentionedIffSent(fs: seq<Fragment>, k: int)
    ensures Mentions(fs, k) <==> Only(fs, k) != []
  {
    EntryIsItsFragments(fs, k);
    if Mentions(fs, k) {
      NonEmptyWhenMentioned(fs, k);
    }
  }

  lemma {:induction false} NonEmptyWhenMentioned(fs: seq<Fragment>, k: int)
    requires Mentions(fs, k)
    ensures Only(fs, k) != []
  {
    var i :| 0 <= i < |fs| && fs[i].index == k;
    if i < |fs| - 1 {
      assert fs[..|fs| - 1][i].index == k;
      NonEmptyWhenMentioned(fs[..|fs| - 1], k);
    }
  }
}
