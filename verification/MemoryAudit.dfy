/** Duplicate clusters: union-find with path halving over the similarity graph. */
module MemoryAudit {
  import opened Similarity

  // ---------- the graph ----------

  predicate Edge(es: seq<Profile>, t: real, i: nat, j: nat) {
    i < |es| && j < |es| && i != j && Similar(es[i], es[j], t)
  }

  ghost predicate IsPath(es: seq<Profile>, t: real, p: seq<nat>) {
    && p != []
    && (forall k :: 0 <= k < |p| ==> p[k] < |es|)
    && (forall k :: 0 <= k < |p| - 1 ==> Edge(es, t, p[k], p[k + 1]))
  }

  ghost predicate Joins(es: seq<Profile>, t: real, p: seq<nat>, i: nat, j: nat) {
    IsPath(es, t, p) && p[0] == i && p[|p| - 1] == j
  }

  /** `i` and `j` lie in the same connected component. */
  ghost predicate Linked(es: seq<Profile>, t: real, i: nat, j: nat) {
    exists p :: Joins(es, t, p, i, j)
  }

  lemma LinkedSelf(es: seq<Profile>, t: real, i: nat)
    requires i < |es|
    ensures Linked(es, t, i, i)
  {
    assert Joins(es, t, [i], i, i);
  }

  lemma LinkedEdge(es: seq<Profile>, t: real, i: nat, j: nat)
    requires Edge(es, t, i, j)
    ensures Linked(es, t, i, j)
  {
    assert Joins(es, t, [i, j], i, j);
  }

  lemma LinkedTrans(es: seq<Profile>, t: real, i: nat, j: nat, k: nat)
    requires Linked(es, t, i, j) && Linked(es, t, j, k)
    ensures Linked(es, t, i, k)
  {
    var p :| Joins(es, t, p, i, j);
    var q :| Joins(es, t, q, j, k);
    var r := p + q[1..];
    assert forall x :: |p| <= x < |r| ==> r[x] == q[x - |p| + 1];
    assert Joins(es, t, r, i, k);
  }

  lemma {:induction false} LinkedSym(es: seq<Profile>, t: real, p: seq<nat>, i: nat, j: nat)
    requires Joins(es, t, p, i, j)
    ensures Linked(es, t, j, i)
    decreases |p|
  {
    if |p| == 1 {
      LinkedSelf(es, t, i);
    } else {
      var rest := p[1..];
      LinkedSym(es, t, rest, p[1], j);
      assert Edge(es, t, p[0], p[1]);
      SimilarSymmetric(es[p[0]], es[p[1]], t);
      LinkedEdge(es, t, p[1], i);
      LinkedTrans(es, t, j, p[1], i);
    }
  }

  lemma LinkedSymmetric(es: seq<Profile>, t: real, i: nat, j: nat)
    requires Linked(es, t, i, j)
    ensures Linked(es, t, j, i)
  {
    var p :| Joins(es, t, p, i, j);
    LinkedSym(es, t, p, i, j);
  }

  // ---------- what the clusters are ----------

  ghost predicate Ascending(s: seq<nat>) {
    forall i, j :: 0 <= i < j < |s| ==> s[i] < s[j]
  }

  /** `c` is the whole connected component of each of its members. */
  ghost predicate IsComponent(es: seq<Profile>, t: real, c: seq<nat>) {
    && c != [] && Ascending(c)
    && (forall k :: 0 <= k < |c| ==> c[k] < |es|)
    && (forall j :: 0 <= j < |es| ==> (j in c <==> Linked(es, t, c[0], j)))
  }

  /**
   * Exactly the connected components of size above one, each ascending, in the order of their
   * least members.
   */
  ghost predicate AreClusters(es: seq<Profile>, t: real, cs: seq<seq<nat>>) {
    && (forall a :: 0 <= a < |cs| ==> |cs[a]| > 1 && IsComponent(es, t, cs[a]))
    && (forall a, b :: 0 <= a < b < |cs| ==> |cs[a]| > 1 && |cs[b]| > 1 && cs[a][0] < cs[b][0])
    && (forall i, j :: 0 <= i < |es| && 0 <= j < |es| && i != j && Linked(es, t, i, j) ==> Covered(cs, i))
  }

  ghost predicate Covered(cs: seq<seq<nat>>, i: nat) {
    exists a :: 0 <= a < |cs| && i in cs[a]
  }

  lemma ComponentsAgree(es: seq<Profile>, t: real, c: seq<nat>, d: seq<nat>, i: nat)
    requires IsComponent(es, t, c) && IsComponent(es, t, d) && i in c && i in d
    ensures c == d
  {
    forall j | 0 <= j < |es|
      ensures j in c <==> j in d
    {
      if Linked(es, t, c[0], j) {
        LinkedSymmetric(es, t, c[0], i);
        LinkedTrans(es, t, i, c[0], j);
        LinkedTrans(es, t, d[0], i, j);
      }
      if Linked(es, t, d[0], j) {
        LinkedSymmetric(es, t, d[0], i);
        LinkedTrans(es, t, i, d[0], j);
        LinkedTrans(es, t, c[0], i, j);
      }
    }
    AscendingUnique(c, d);
  }

  lemma {:induction false} AscendingUnique(c: seq<nat>, d: seq<nat>)
    requires Ascending(c) && Ascending(d)
    requires forall x :: x in c <==> x in d
    ensures c == d
    decreases |c|
  {
    if |c| > 0 { assert c[0] in d; }
    if |d| > 0 { assert d[0] in c; }
    if |c| > 0 && |d| > 0 {
      assert c[0] in d;
      assert d[0] in c;
      var c', d' := c[1..], d[1..];
      forall x | x in c' ensures x in d' {
        assert x in c && x != c[0];
        assert x in d;
      }
      forall x | x in d' ensures x in c' {
        assert x in d && x != d[0];
        assert x in c;
      }
      AscendingUnique(c', d');
    }
  }

  /** No index is in two clusters. */
  lemma ClustersDisjoint(es: seq<Profile>, t: real, cs: seq<seq<nat>>, a: nat, b: nat, i: nat)
    requires AreClusters(es, t, cs) && a < |cs| && b < |cs| && i in cs[a] && i in cs[b]
    ensures a == b
  {
    ComponentsAgree(es, t, cs[a], cs[b], i);
  }

  /** Raising the threshold only refines: every cluster lies inside one of the lower threshold's. */
  lemma RaisingRefines(es: seq<Profile>, low: real, high: real, coarse: seq<seq<nat>>, fine: seq<seq<nat>>, a: nat)
    requires low <= high
    requires AreClusters(es, low, coarse) && AreClusters(es, high, fine) && a < |fine|
    ensures exists b :: 0 <= b < |coarse| && forall i :: i in fine[a] ==> i in coarse[b]
  {
    var c := fine[a];
    forall i | i in c ensures Linked(es, low, c[0], i) {
      assert Linked(es, high, c[0], i);
      LinkedAntitone(es, low, high, c[0], i);
    }
    assert c[1] in c;
    assert Linked(es, low, c[0], c[1]);
    assert Covered(coarse, c[0]);
    var b :| 0 <= b < |coarse| && c[0] in coarse[b];
    forall i | i in c ensures i in coarse[b] {
      LinkedTrans(es, low, coarse[b][0], c[0], i);
    }
  }

  lemma LinkedAntitone(es: seq<Profile>, low: real, high: real, i: nat, j: nat)
    requires low <= high && Linked(es, high, i, j)
    ensures Linked(es, low, i, j)
  {
    var p :| Joins(es, high, p, i, j);
    forall k | 0 <= k < |p| - 1 ensures Edge(es, low, p[k], p[k + 1]) {
      assert Edge(es, high, p[k], p[k + 1]);
      SimilarAntitone(es[p[k]], es[p[k + 1]], low, high);
    }
    assert Joins(es, low, p, i, j);
  }

  ghost function Leads(cs: seq<seq<nat>>): (r: seq<nat>)
    requires forall a :: 0 <= a < |cs| ==> |cs[a]| > 1
    ensures |r| == |cs| && forall a :: 0 <= a < |cs| ==> r[a] == cs[a][0]
  {
    seq(|cs|, a requires 0 <= a < |cs| => cs[a][0])
  }

  lemma LeadsIncluded(es: seq<Profile>, t: real, cs: seq<seq<nat>>, ds: seq<seq<nat>>, x: nat)
    requires AreClusters(es, t, cs) && AreClusters(es, t, ds) && x in Leads(cs)
    ensures x in Leads(ds)
  {
    var a: nat :| a < |cs| && Leads(cs)[a] == x;
    var c := cs[a];
    assert c[1] in c && c[0] in c;
    assert Linked(es, t, c[0], c[1]);
    assert Covered(ds, x);
    var b: nat :| b < |ds| && x in ds[b];
    ComponentsAgree(es, t, c, ds[b], x);
    assert Leads(ds)[b] == x;
  }

  /** The specification leaves no freedom: there is one list of clusters. */
  lemma ClustersUnique(es: seq<Profile>, t: real, cs: seq<seq<nat>>, ds: seq<seq<nat>>)
    requires AreClusters(es, t, cs) && AreClusters(es, t, ds)
    ensures cs == ds
  {
    forall x ensures x in Leads(cs) <==> x in Leads(ds) {
      if x in Leads(cs) { LeadsIncluded(es, t, cs, ds, x); }
      if x in Leads(ds) { LeadsIncluded(es, t, ds, cs, x); }
    }
    AscendingUnique(Leads(cs), Leads(ds));
    forall a | 0 <= a < |cs| ensures cs[a] == ds[a] {
      assert Leads(cs)[a] == Leads(ds)[a];
      assert cs[a][0] in cs[a] && ds[a][0] in ds[a];
      ComponentsAgree(es, t, cs[a], ds[a], cs[a][0]);
    }
  }

  /** With no similar pair there is no cluster, and conversely. */
  lemma NoClusterIffNoEdge(es: seq<Profile>, t: real, cs: seq<seq<nat>>)
    requires AreClusters(es, t, cs)
    ensures cs == [] <==> forall i, j :: 0 <= i < |es| && 0 <= j < |es| ==> !Edge(es, t, i, j)
  {
    if i: nat, j: nat :| i < |es| && j < |es| && Edge(es, t, i, j) {
      LinkedEdge(es, t, i, j);
      assert Covered(cs, i);
    }
    if cs != [] {
      var c := cs[0];
      assert c[1] in c;
      var p :| Joins(es, t, p, c[0], c[1]);
      assert Edge(es, t, p[0], p[1]);
    }
  }

  // ---------- the forest ----------

  /**
   * What holds at node `x`: `root` names where its parent links end, and ranks rise along
   * every link, so the links form no cycle.
   */
  ghost predicate Hangs(parent: seq<nat>, root: seq<nat>, rank: seq<nat>, x: nat)
    requires |parent| == |root| == |rank|
  {
    && x < |parent| && parent[x] < |parent| && root[x] < |parent|
    && parent[root[x]] == root[x]
    && root[parent[x]] == root[x]
    && (parent[x] == x ==> root[x] == x)
    && (parent[x] != x ==> rank[x] < rank[parent[x]])
    && rank[x] <= rank[root[x]]
  }

  /** `parent` is an acyclic forest with roots `root`. */
  ghost predicate Forest(parent: seq<nat>, root: seq<nat>, rank: seq<nat>) {
    && |parent| == |root| == |rank|
    && forall x: nat :: x < |parent| ==> Hangs(parent, root, rank, x)
  }

  /** Root lookup with path halving: terminates, returns the root and keeps the forest. */
  method Find(parent: array<nat>, ghost root: seq<nat>, ghost rank: seq<nat>, start: nat) returns (x: nat)
    requires start < parent.Length && Forest(parent[..], root, rank)
    modifies parent
    ensures Forest(parent[..], root, rank)
    ensures x < parent.Length && x == root[start] && parent[x] == x
  {
    x := start;
    assert Hangs(parent[..], root, rank, start);
    while parent[x] != x
      invariant x < parent.Length && root[x] == root[start]
      invariant Forest(parent[..], root, rank)
      decreases rank[root[start]] as int - rank[x] as int
    {
      Halve(parent[..], root, rank, x);
      assert parent[..][x] == parent[x] && parent[..][parent[x]] == parent[parent[x]];
      ghost var next := parent[..][x := parent[parent[x]]];
      parent[x] := parent[parent[x]];
      assert parent[..] == next;
      x := parent[x];
    }
    assert Hangs(parent[..], root, rank, x);
  }

  /** One halving keeps the forest and moves strictly up. */
  lemma Halve(parent: seq<nat>, root: seq<nat>, rank: seq<nat>, x: nat)
    requires Forest(parent, root, rank) && x < |parent| && parent[x] != x
    ensures parent[x] < |parent| && parent[parent[x]] < |parent|
    ensures Forest(parent[x := parent[parent[x]]], root, rank)
    ensures root[x] < |parent| && rank[x] < rank[parent[parent[x]]] <= rank[root[x]]
    ensures root[parent[parent[x]]] == root[x]
  {
    assert Hangs(parent, root, rank, x);
    var p := parent[x];
    assert Hangs(parent, root, rank, p);
    var pp := parent[p];
    assert Hangs(parent, root, rank, pp);
    var parent' := parent[x := pp];
    forall y: nat | y < |parent| ensures Hangs(parent', root, rank, y) {
      assert Hangs(parent, root, rank, y);
    }
  }

  /** Links the root of `a` under the root of `b`: exactly their two classes merge. */
  method Union(parent: array<nat>, ghost root: seq<nat>, ghost rank: seq<nat>, a: nat, b: nat)
    returns (ghost root': seq<nat>, ghost rank': seq<nat>)
    requires a < parent.Length && b < parent.Length && Forest(parent[..], root, rank)
    modifies parent
    ensures Forest(parent[..], root', rank')
    ensures root' == MergedRoots(root, root[a], root[b])
  {
    var ra := Find(parent, root, rank, a);
    var rb := Find(parent, root, rank, b);
    if ra != rb {
      root', rank' := MergedRoots(root, ra, rb), MergedRanks(rank, ra, rb);
      assert Hangs(parent[..], root, rank, a) && Hangs(parent[..], root, rank, b);
      Merge(parent[..], root, rank, ra, rb);
      ghost var next := parent[..][ra := rb];
      parent[ra] := rb;
      assert parent[..] == next;
    } else {
      root', rank' := root, rank;
      assert root == MergedRoots(root, ra, rb);
    }
  }

  ghost function MergedRoots(root: seq<nat>, ra: nat, rb: nat): (r: seq<nat>) {
    seq(|root|, x requires 0 <= x < |root| => if root[x] == ra then rb else root[x])
  }

  ghost function MergedRanks(rank: seq<nat>, ra: nat, rb: nat): (r: seq<nat>)
    requires ra < |rank| && rb < |rank|
    ensures |r| == |rank|
  {
    if rank[rb] <= rank[ra] then rank[rb := rank[ra] + 1] else rank
  }

  lemma Merge(parent: seq<nat>, root: seq<nat>, rank: seq<nat>, ra: nat, rb: nat)
    requires Forest(parent, root, rank)
    requires ra < |parent| && rb < |parent| && ra != rb && parent[ra] == ra && parent[rb] == rb
    ensures Forest(parent[ra := rb], MergedRoots(root, ra, rb), MergedRanks(rank, ra, rb))
  {
    var parent', root', rank' := parent[ra := rb], MergedRoots(root, ra, rb), MergedRanks(rank, ra, rb);
    assert Hangs(parent, root, rank, ra) && Hangs(parent, root, rank, rb);
    forall x: nat | x < |parent| ensures Hangs(parent', root', rank', x) {
      assert Hangs(parent, root, rank, x);
    }
  }

  // ---------- clustering ----------

  /** Roots are sound: nobody is filed under a root it is not linked to. */
  ghost predicate Sound(es: seq<Profile>, t: real, root: seq<nat>) {
    |root| == |es| && forall x: nat :: x < |root| ==> root[x] < |es| && Linked(es, t, x, root[x])
  }

  /** Every similar pair seen before `(i, j)` shares a root. */
  ghost predicate Complete(es: seq<Profile>, t: real, root: seq<nat>, i: nat, j: nat) {
    && |root| == |es|
    && forall a: nat, b: nat :: a < b < |es| && (a < i || (a == i && b < j)) && Edge(es, t, a, b) ==> root[a] == root[b]
  }

  lemma MergeSound(es: seq<Profile>, t: real, root: seq<nat>, i: nat, j: nat)
    requires Sound(es, t, root) && Edge(es, t, i, j)
    ensures Sound(es, t, MergedRoots(root, root[i], root[j]))
  {
    var root' := MergedRoots(root, root[i], root[j]);
    forall x: nat | x < |root| ensures root'[x] < |es| && Linked(es, t, x, root'[x]) {
      assert Linked(es, t, x, root[x]);
      if root[x] == root[i] {
        LinkedSymmetric(es, t, i, root[i]);
        LinkedTrans(es, t, x, root[i], i);
        LinkedEdge(es, t, i, j);
        LinkedTrans(es, t, x, i, j);
        LinkedTrans(es, t, x, j, root[j]);
      }
    }
  }

  lemma {:induction false} RootFollowsPath(es: seq<Profile>, t: real, root: seq<nat>, p: seq<nat>)
    requires IsPath(es, t, p) && Complete(es, t, root, |es|, 0)
    ensures root[p[0]] == root[p[|p| - 1]]
    decreases |p|
  {
    if |p| > 1 {
      var a, b := p[0], p[1];
      assert Edge(es, t, p[0], p[0 + 1]);
      SimilarSymmetric(es[a], es[b], t);
      assert Edge(es, t, b, a);
      RootFollowsPath(es, t, root, p[1..]);
    }
  }

  /** Once all pairs are seen, sharing a root is the same as being linked. */
  lemma RootsAreComponents(es: seq<Profile>, t: real, root: seq<nat>, i: nat, j: nat)
    requires Sound(es, t, root) && Complete(es, t, root, |es|, 0) && i < |es| && j < |es|
    ensures root[i] == root[j] <==> Linked(es, t, i, j)
  {
    if root[i] == root[j] {
      assert Linked(es, t, i, root[i]) && Linked(es, t, j, root[j]);
      LinkedSymmetric(es, t, j, root[j]);
      LinkedTrans(es, t, i, root[i], j);
    }
    if Linked(es, t, i, j) {
      var p :| Joins(es, t, p, i, j);
      RootFollowsPath(es, t, root, p);
    }
  }

  /** The pairwise test of the source, branch by branch. */
  predicate PairTest(a: Profile, b: Profile, threshold: real)
    requires a.norm != "" && b.norm != ""
  {
    if a.norm == b.norm || Contains(b.norm, a.norm) || Contains(a.norm, b.norm) then true
    else if a.tokens == {} || b.tokens == {} then false
    else
      var overlap := |a.tokens * b.tokens|;
      var smaller := if |a.tokens| < |b.tokens| then |a.tokens| else |b.tokens|;
      smaller >= 2 && overlap as real / smaller as real >= threshold
  }

  /** The state of the pair loops just before pair `(i, j)`. */
  ghost predicate Linking(es: seq<Profile>, t: real, parent: seq<nat>, root: seq<nat>, rank: seq<nat>, i: nat, j: nat) {
    Forest(parent, root, rank) && Sound(es, t, root) && Complete(es, t, root, i, j)
  }

  /** One pass of the inner loop body. */
  method LinkPair(es: seq<Profile>, threshold: real, parent: array<nat>, ghost root: seq<nat>, ghost rank: seq<nat>, i: nat, j: nat)
    returns (ghost root': seq<nat>, ghost rank': seq<nat>)
    requires i < j < |es| && Linking(es, threshold, parent[..], root, rank, i, j) && es[i].norm != ""
    modifies parent
    ensures Linking(es, threshold, parent[..], root', rank', i, j + 1)
  {
    root', rank' := root, rank;
    if es[j].norm != "" && PairTest(es[i], es[j], threshold) {
      root', rank' := Union(parent, root, rank, i, j);
      MergeSound(es, threshold, root, i, j);
    }
  }

  /** Runs the pair loops over a fresh parent array. */
  method LinkPairs(es: seq<Profile>, threshold: real)
    returns (parent: array<nat>, ghost root: seq<nat>, ghost rank: seq<nat>)
    ensures fresh(parent) && parent.Length == |es|
    ensures Linking(es, threshold, parent[..], root, rank, |es|, 0)
  {
    var n := |es|;
    parent := new nat[n](i => i);
    root, rank := seq(n, i => i), seq(n, _ => 0);
    forall x: nat | x < n ensures Linked(es, threshold, x, x) { LinkedSelf(es, threshold, x); }
    for i := 0 to n
      invariant Linking(es, threshold, parent[..], root, rank, i, 0)
    {
      if es[i].norm == "" {
        continue;
      }
      assert Complete(es, threshold, root, i, i + 1);
      for j := i + 1 to n
        invariant Linking(es, threshold, parent[..], root, rank, i, j)
      {
        root, rank := LinkPair(es, threshold, parent, root, rank, i, j);
      }
      assert Complete(es, threshold, root, i + 1, 0);
    }
  }

  /** Nodes below `k` filed under `r`, in ascending order. */
  function Members(root: seq<nat>, r: nat, k: nat): seq<nat>
    requires k <= |root|
  {
    if k == 0 then [] else Members(root, r, k - 1) + if root[k - 1] == r then [k - 1] else []
  }

  lemma {:induction false} MembersSpec(root: seq<nat>, r: nat, k: nat)
    requires k <= |root|
    ensures forall x: nat :: x in Members(root, r, k) <==> x < k && root[x] == r
    ensures Ascending(Members(root, r, k))
  {
    if k > 0 {
      MembersSpec(root, r, k - 1);
      var m := Members(root, r, k - 1);
      forall i | 0 <= i < |m| ensures m[i] < k - 1 {
        assert m[i] in m;
      }
    }
  }

  /** `r` is first met at `x`, before `k`. */
  ghost predicate FirstAt(root: seq<nat>, r: nat, x: nat, k: nat)
    requires k <= |root|
  {
    x < k && root[x] == r && forall y: nat :: y < x ==> root[y] != r
  }

  /** `order` lists the roots met below `k`, each first met at its `leads`, which ascend. */
  ghost predicate RootOrder(root: seq<nat>, order: seq<nat>, leads: seq<nat>, k: nat)
    requires k <= |root|
  {
    && |order| == |leads|
    && (forall x: nat :: x < k ==> HasRoot(root, order, x))
    && (forall a: nat :: a < |order| ==> FirstAt(root, order[a], leads[a], k))
    && Ascending(leads)
  }

  ghost predicate HasRoot(root: seq<nat>, order: seq<nat>, x: nat)
    requires x < |root|
  {
    root[x] in order
  }

  lemma MembersLead(root: seq<nat>, r: nat, x: nat, k: nat)
    requires k <= |root| && FirstAt(root, r, x, k)
    ensures Members(root, r, k) != [] && Members(root, r, k)[0] == x
  {
    var m := Members(root, r, k);
    MembersSpec(root, r, k);
    assert x in m;
    assert m[0] in m;
  }

  /** `byRoot` files exactly the nodes below `i`, under the roots in `order`. */
  ghost predicate Filed(root: seq<nat>, byRoot: map<nat, seq<nat>>, order: seq<nat>, i: nat)
    requires i <= |root|
  {
    && byRoot.Keys == (set r | r in order)
    && forall r :: r in byRoot ==> byRoot[r] == Members(root, r, i)
  }

  lemma FileNext(root: seq<nat>, byRoot: map<nat, seq<nat>>, order: seq<nat>, leads: seq<nat>, i: nat)
    requires i < |root| && RootOrder(root, order, leads, i) && Filed(root, byRoot, order, i)
    ensures var r := root[i];
            if r in byRoot then
              Filed(root, byRoot[r := byRoot[r] + [i]], order, i + 1) && RootOrder(root, order, leads, i + 1)
            else
              Filed(root, byRoot[r := [i]], order + [r], i + 1) && RootOrder(root, order + [r], leads + [i], i + 1)
  {
    var r := root[i];
    if r in byRoot {
      assert byRoot[r := byRoot[r] + [i]].Keys == byRoot.Keys;
    } else {
      NewRoot(root, order, leads, i);
      UnmetRoot(root, order, leads, i);
      assert byRoot[r := [i]].Keys == (set x | x in order + [r]);
    }
  }

  /** Files every node under its root, keeping the roots in order of first appearance. */
  method GroupByRoot(parent: array<nat>, ghost root: seq<nat>, ghost rank: seq<nat>)
    returns (byRoot: map<nat, seq<nat>>, order: seq<nat>, ghost leads: seq<nat>)
    requires Forest(parent[..], root, rank)
    modifies parent
    ensures RootOrder(root, order, leads, |root|)
    ensures Filed(root, byRoot, order, |root|)
  {
    byRoot, order, leads := map[], [], [];
    for i := 0 to parent.Length
      invariant Forest(parent[..], root, rank)
      invariant Filed(root, byRoot, order, i)
      invariant RootOrder(root, order, leads, i)
    {
      var r := Find(parent, root, rank, i);
      FileNext(root, byRoot, order, leads, i);
      if r in byRoot {
        byRoot := byRoot[r := byRoot[r] + [i]];
      } else {
        byRoot := byRoot[r := [i]];
        order, leads := order + [r], leads + [i];
      }
    }
  }

  lemma UnmetRoot(root: seq<nat>, order: seq<nat>, leads: seq<nat>, i: nat)
    requires i < |root| && RootOrder(root, order, leads, i) && root[i] !in order
    ensures Members(root, root[i], i + 1) == [i]
    ensures FirstAt(root, root[i], i, i + 1)
  {
    forall y: nat | y < i ensures root[y] != root[i] {
      assert HasRoot(root, order, y);
    }
    NoneFiled(root, root[i], i);
  }

  lemma {:induction false} NoneFiled(root: seq<nat>, r: nat, k: nat)
    requires k <= |root| && forall y: nat :: y < k ==> root[y] != r
    ensures Members(root, r, k) == []
  {
    if k > 0 { NoneFiled(root, r, k - 1); }
  }

  lemma NewRoot(root: seq<nat>, order: seq<nat>, leads: seq<nat>, i: nat)
    requires i < |root| && RootOrder(root, order, leads, i) && root[i] !in order
    ensures RootOrder(root, order + [root[i]], leads + [i], i + 1)
  {
    UnmetRoot(root, order, leads, i);
    var order', leads' := order + [root[i]], leads + [i];
    forall a: nat | a < |order'| ensures FirstAt(root, order'[a], leads'[a], i + 1) && leads'[a] <= i {
      if a < |order| {
        assert FirstAt(root, order[a], leads[a], i);
      }
    }
    forall x: nat | x < i + 1 ensures HasRoot(root, order', x) {
      assert x < i ==> HasRoot(root, order, x);
    }
    forall a, b | 0 <= a < b < |leads'| ensures leads'[a] < leads'[b] {
      if b == |leads| {
        assert FirstAt(root, order[a], leads[a], i);
      }
    }
  }

  /** Groups the nodes by root, in order of first appearance, then drops the singletons. */
  method OverlapClusters(es: seq<Profile>, threshold: real) returns (clusters: seq<seq<nat>>)
    ensures AreClusters(es, threshold, clusters)
  {
    if |es| < 2 {
      clusters := [];
      return;
    }
    var parent, root, rank := LinkPairs(es, threshold);
    var byRoot, order, leads := GroupByRoot(parent, root, rank);
    clusters := [];
    ghost var from: seq<nat> := [];
    for a := 0 to |order|
      invariant Selected(root, order, a, from, clusters)
    {
      assert order[a] in order;
      var members := byRoot[order[a]];
      SelectNext(root, order, a, from, clusters);
      if |members| > 1 {
        clusters := clusters + [members];
        from := from + [a];
      }
    }
    GroupsAreClusters(es, threshold, root, order, leads, from, clusters);
  }

  /** `c` is the group, of more than one member, of one of the first `k` roots. */
  ghost predicate GroupAt(root: seq<nat>, order: seq<nat>, k: nat, a: nat, c: seq<nat>) {
    a < k <= |order| && |c| > 1 && c == Members(root, order[a], |root|)
  }

  /** `cs` holds the groups of more than one member among the first `k` roots; `from` says whose. */
  ghost predicate Selected(root: seq<nat>, order: seq<nat>, k: nat, from: seq<nat>, cs: seq<seq<nat>>) {
    && k <= |order|
    && |from| == |cs|
    && (forall c: nat :: c < |cs| ==> GroupAt(root, order, k, from[c], cs[c]))
    && Ascending(from)
    && (forall b: nat :: b < k && |Members(root, order[b], |root|)| > 1 ==> b in from)
  }

  lemma SelectNext(root: seq<nat>, order: seq<nat>, k: nat, from: seq<nat>, cs: seq<seq<nat>>)
    requires k < |order| && Selected(root, order, k, from, cs)
    ensures var c := Members(root, order[k], |root|);
            if |c| > 1 then Selected(root, order, k + 1, from + [k], cs + [c])
            else Selected(root, order, k + 1, from, cs)
  {
    forall c: nat | c < |cs| ensures GroupAt(root, order, k + 1, from[c], cs[c]) {
      assert GroupAt(root, order, k, from[c], cs[c]);
    }
    var from' := from + [k];
    forall b: nat | b < k + 1 && |Members(root, order[b], |root|)| > 1 ensures b in from' {
      if b < k { assert b in from; } else { assert from'[|from|] == b; }
    }
    forall a, b | 0 <= a < b < |from'| ensures from'[a] < from'[b] {
      if b == |from| { assert GroupAt(root, order, k, from[a], cs[a]); }
    }
  }

  lemma GroupsAreClusters(es: seq<Profile>, t: real, root: seq<nat>, order: seq<nat>, leads: seq<nat>,
                          from: seq<nat>, cs: seq<seq<nat>>)
    requires Sound(es, t, root) && Complete(es, t, root, |es|, 0)
    requires RootOrder(root, order, leads, |es|) && Selected(root, order, |order|, from, cs)
    ensures AreClusters(es, t, cs)
  {
    forall a: nat | a < |cs|
      ensures |cs[a]| > 1 && IsComponent(es, t, cs[a]) && from[a] < |leads| && cs[a][0] == leads[from[a]]
    {
      assert GroupAt(root, order, |order|, from[a], cs[a]);
      assert FirstAt(root, order[from[a]], leads[from[a]], |es|);
      GroupIsComponent(es, t, root, order[from[a]], leads[from[a]]);
    }
    forall i: nat, j: nat | i < |es| && j < |es| && i != j && Linked(es, t, i, j)
      ensures Covered(cs, i)
    {
      LinkedIsSelected(es, t, root, order, leads, from, cs, i, j);
    }
  }

  lemma LinkedIsSelected(es: seq<Profile>, t: real, root: seq<nat>, order: seq<nat>, leads: seq<nat>,
                         from: seq<nat>, cs: seq<seq<nat>>, i: nat, j: nat)
    requires Sound(es, t, root) && Complete(es, t, root, |es|, 0)
    requires RootOrder(root, order, leads, |es|) && Selected(root, order, |order|, from, cs)
    requires i < |es| && j < |es| && i != j && Linked(es, t, i, j)
    ensures Covered(cs, i)
  {
    assert HasRoot(root, order, i);
    var b: nat :| b < |order| && order[b] == root[i];
    var m := Members(root, order[b], |es|);
    MembersSpec(root, order[b], |es|);
    RootsAreComponents(es, t, root, i, j);
    TwoMembers(m, i, j);
    assert b in from;
    var c: nat :| c < |from| && from[c] == b;
    assert GroupAt(root, order, |order|, from[c], cs[c]);
    assert i in cs[c];
  }

  lemma TwoMembers(m: seq<nat>, i: nat, j: nat)
    requires i in m && j in m && i != j
    ensures |m| > 1
  {
  }

  lemma GroupIsComponent(es: seq<Profile>, t: real, root: seq<nat>, r: nat, lead: nat)
    requires Sound(es, t, root) && Complete(es, t, root, |es|, 0) && FirstAt(root, r, lead, |es|)
    ensures var c := Members(root, r, |es|); IsComponent(es, t, c) && c[0] == lead
  {
    var c := Members(root, r, |es|);
    MembersSpec(root, r, |es|);
    MembersLead(root, r, lead, |es|);
    forall k: nat | k < |c| ensures c[k] < |es| {
      assert c[k] in c;
    }
    forall j: nat | j < |es| ensures j in c <==> Linked(es, t, c[0], j) {
      RootsAreComponents(es, t, root, lead, j);
    }
  }

  /** The audit's sweep: for each threshold, the clusters of each file. */
  method Duplicates(files: seq<seq<Profile>>, thresholds: seq<real>) returns (report: seq<seq<seq<seq<nat>>>>)
    ensures |report| == |thresholds|
    ensures forall k :: 0 <= k < |thresholds| ==> |report[k]| == |files|
    ensures forall k, f :: 0 <= k < |thresholds| && 0 <= f < |files| ==>
              AreClusters(files[f], thresholds[k], report[k][f])
  {
    report := [];
    for k := 0 to |thresholds|
      invariant |report| == k
      invariant forall k' :: 0 <= k' < k ==> |report[k']| == |files|
      invariant forall k', f :: 0 <= k' < k && 0 <= f < |files| ==> AreClusters(files[f], thresholds[k'], report[k'][f])
    {
      var row: seq<seq<seq<nat>>> := [];
      for f := 0 to |files|
        invariant |row| == f
        invariant forall f' :: 0 <= f' < f ==> AreClusters(files[f'], thresholds[k], row[f'])
      {
        var groups := OverlapClusters(files[f], thresholds[k]);
        row := row + [groups];
      }
      report := report + [row];
    }
  }
}
