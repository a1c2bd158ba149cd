/** The trees that collectives run on: the spanning tree of the macros in
    include/converse.h, over processes and over the PEs of each, and the 4-ary tree
    of a list reduction (src/collectives.cpp). */
module SpanTree {
  import opened Collections

  /** CST_W */
  const WIDTH: nat := 4

  // ----- a 4-ary tree over 0, 1, ..., n - 1

  function Up4(i: nat): int {
    if i == 0 then -1 else (i - 1) / WIDTH
  }

  /** The child count as the macros compute it. */
  function Kids4(n: nat, i: nat): int {
    if (i + 1) * WIDTH < n then WIDTH else if i * WIDTH + 1 >= n then 0 else n - 1 - i * WIDTH
  }

  lemma Up4Range(i: nat, c: nat)
    ensures 0 < c ==> (Up4(c) == i <==> i * WIDTH + 1 <= c <= i * WIDTH + WIDTH)
    ensures 0 < c ==> 0 <= Up4(c) < c
  {
  }

  lemma Kids4Range(n: nat, i: nat, c: nat)
    requires 0 < c
    ensures 0 <= Kids4(n, i) <= WIDTH
    ensures c < n && Up4(c) == i <==> i * WIDTH + 1 <= c < i * WIDTH + 1 + Kids4(n, i)
  {
    Up4Range(i, c);
  }

  /** CmiListReduce's own way to count the children. */
  lemma ListKids(n: nat, i: nat)
    ensures var k := n - i * 4 - 1; Kids4(n, i) == if k > WIDTH then WIDTH else if k < 0 then 0 else k
  {
  }

  // ----- the spanning tree over `nodes` processes of `size` PEs each

  function NodeOf(size: nat, p: nat): nat
    requires size > 0
  {
    p / size
  }

  function RankOf(size: nat, p: nat): nat
    requires size > 0
  {
    p % size
  }

  /** A PE number is made of its process and its rank there, in one way only. */
  lemma Parts(size: nat, p: nat)
    requires size > 0
    ensures p == NodeOf(size, p) * size + RankOf(size, p) && RankOf(size, p) < size
  {
  }

  lemma PeParts(size: nat, node: nat, rank: nat)
    requires rank < size
    ensures NodeOf(size, node * size + rank) == node && RankOf(size, node * size + rank) == rank
  {
    var p := node * size + rank;
    Parts(size, p);
    SameParts(size, node, rank, NodeOf(size, p), RankOf(size, p));
  }

  lemma SameParts(size: nat, q: nat, r: nat, q': nat, r': nat)
    requires q * size + r == q' * size + r' && r < size && r' < size
    ensures q == q' && r == r'
  {
    if q < q' {
      Apart(size, q, q');
    } else if q' < q {
      Apart(size, q', q);
    }
  }

  lemma Apart(size: nat, q: nat, q': nat)
    requires q < q'
    ensures q' * size >= q * size + size
  {
    assert q' * size == q * size + (q' - q) * size;
    assert (q' - q) * size == size + (q' - q - 1) * size;
  }

  /** CmiSpanTreeParent */
  function SpanUp(size: nat, p: nat): int
    requires size > 0
  {
    if p == 0 then -1
    else if RankOf(size, p) != 0 then NodeOf(size, p) * size + (RankOf(size, p) - 1) / WIDTH
    else Up4(NodeOf(size, p)) * size
  }

  /** CmiNumSpanTreeChildren */
  function SpanKids(nodes: nat, size: nat, p: nat): int
    requires size > 0
  {
    if RankOf(size, p) != 0 then Kids4(size, RankOf(size, p))
    else Kids4(nodes, NodeOf(size, p)) + Kids4(size, RankOf(size, p))
  }

  /** Parents come before their children, so every PE leads up to PE 0. */
  lemma SpanUpBelow(size: nat, p: nat)
    requires size > 0 && p > 0
    ensures 0 <= SpanUp(size, p) < p
  {
    var node, rank := NodeOf(size, p), RankOf(size, p);
    Parts(size, p);
    hide NodeOf, RankOf;
    if rank != 0 {
      Up4Range(0, rank);
    } else {
      Up4Range(0, node);
      Apart(size, Up4(node), node);
    }
  }

  /** Which PEs have parent `p`: the first PEs of its process's children, if it is
      a first PE itself, and its children within the process. */
  lemma SpanUpIs(size: nat, p: nat, c: nat)
    requires size > 0 && 0 < c
    ensures SpanUp(size, c) == p <==>
            (RankOf(size, c) == 0 && RankOf(size, p) == 0 && Up4(NodeOf(size, c)) == NodeOf(size, p))
            || (RankOf(size, c) != 0 && NodeOf(size, c) == NodeOf(size, p) && Up4(RankOf(size, c)) == RankOf(size, p))
  {
    var node, rank := NodeOf(size, c), RankOf(size, c);
    Parts(size, c);
    Parts(size, p);
    hide NodeOf, RankOf;
    if rank != 0 {
      Up4Range(0, rank);
      PeParts(size, node, Up4(rank));
    } else {
      Up4Range(0, node);
      PeParts(size, Up4(node), 0);
    }
  }

  /** CmiSpanTreeChildren: the children macro fills its array with exactly the PEs
      whose parent is `p`, as many as CmiNumSpanTreeChildren says. */
  method SpanChildren(nodes: nat, size: nat, p: nat) returns (cs: seq<nat>)
    requires size > 0 && p < nodes * size
    ensures Distinct(cs) && |cs| == SpanKids(nodes, size, p)
    ensures forall c: nat :: c in cs <==> 0 < c < nodes * size && SpanUp(size, c) == p
  {
    var node, rank := NodeOf(size, p), RankOf(size, p);
    assert p == node * size + rank;
    cs := [];
    ghost var k := if rank == 0 then Kids4(nodes, node) else 0;
    Kids4Range(nodes, node, 1);
    if rank == 0 {
      var i := 0;
      while i < WIDTH
        invariant 0 <= i <= WIDTH && |cs| == if i < k then i else k
        invariant forall j :: 0 <= j < |cs| ==> cs[j] == (node * WIDTH + j + 1) * size
      {
        var x := node * WIDTH + i + 1;
        Kids4Range(nodes, node, x);
        if x < nodes {
          cs := cs + [x * size];
        }
        i := i + 1;
      }
    }
    var i := 0;
    ghost var r := Kids4(size, rank);
    Kids4Range(size, rank, 1);
    while i < WIDTH
      invariant 0 <= i <= WIDTH && |cs| == k + if i < r then i else r
      invariant forall j :: 0 <= j < k ==> cs[j] == (node * WIDTH + j + 1) * size
      invariant forall j :: k <= j < |cs| ==> cs[j] == node * size + (rank * WIDTH + (j - k) + 1)
    {
      var x := rank * WIDTH + i + 1;
      Kids4Range(size, rank, x);
      if x < size {
        cs := cs + [node * size + x];
      }
      i := i + 1;
    }
    ChildrenAre(nodes, size, p, cs, k, r);
  }

  lemma ChildrenAre(nodes: nat, size: nat, p: nat, cs: seq<nat>, k: nat, r: nat)
    requires size > 0 && p < nodes * size && |cs| == k + r
    requires k == (if RankOf(size, p) == 0 then Kids4(nodes, NodeOf(size, p)) else 0)
    requires r == Kids4(size, RankOf(size, p))
    requires forall j :: 0 <= j < k ==> cs[j] == (NodeOf(size, p) * WIDTH + j + 1) * size
    requires forall j :: k <= j < |cs| ==> cs[j] == NodeOf(size, p) * size + (RankOf(size, p) * WIDTH + (j - k) + 1)
    ensures Distinct(cs)
    ensures forall c: nat :: c in cs <==> 0 < c < nodes * size && SpanUp(size, c) == p
  {
    var node, rank := NodeOf(size, p), RankOf(size, p);
    forall j | 0 <= j < |cs| ensures ChildAt(nodes, size, p, cs[j], j, k) {
      if j < k {
        NodeChild(nodes, size, p, j);
      } else {
        RankChild(nodes, size, p, j - k);
      }
    }
    forall i, j | 0 <= i < j < |cs| ensures cs[i] != cs[j] {
      assert ChildAt(nodes, size, p, cs[i], i, k) && ChildAt(nodes, size, p, cs[j], j, k);
    }
    forall c: nat ensures c in cs <==> 0 < c < nodes * size && SpanUp(size, c) == p {
      if c in cs {
        var j :| 0 <= j < |cs| && cs[j] == c;
        assert ChildAt(nodes, size, p, cs[j], j, k);
      }
      if 0 < c < nodes * size && SpanUp(size, c) == p {
        ChildIndex(nodes, size, p, c, k, r);
        var j := IndexFor(size, p, c, k);
        assert cs[j] == c;
      }
    }
  }

  function IndexFor(size: nat, p: nat, c: nat, k: nat): int
    requires size > 0
  {
    if RankOf(size, c) == 0 then NodeOf(size, c) - NodeOf(size, p) * WIDTH - 1
    else k + RankOf(size, c) - RankOf(size, p) * WIDTH - 1
  }

  ghost predicate ChildAt(nodes: nat, size: nat, p: nat, c: nat, j: int, k: nat) {
    && size > 0 && 0 < c < nodes * size && SpanUp(size, c) == p && j == IndexFor(size, p, c, k)
    && (j < k <==> RankOf(size, c) == 0)
  }

  lemma NodeChild(nodes: nat, size: nat, p: nat, j: nat)
    requires size > 0 && p < nodes * size && RankOf(size, p) == 0 && j < Kids4(nodes, NodeOf(size, p))
    ensures ChildAt(nodes, size, p, (NodeOf(size, p) * WIDTH + j + 1) * size, j, Kids4(nodes, NodeOf(size, p)))
  {
    var x := NodeOf(size, p) * WIDTH + j + 1;
    Kids4Range(nodes, NodeOf(size, p), x);
    PeParts(size, x, 0);
    hide NodeOf, RankOf;
    Apart(size, 0, x);
    Apart(size, x, nodes);
    SpanUpIs(size, p, x * size);
  }

  lemma RankChild(nodes: nat, size: nat, p: nat, j: nat)
    requires size > 0 && p < nodes * size && j < Kids4(size, RankOf(size, p))
    ensures var k := if RankOf(size, p) == 0 then Kids4(nodes, NodeOf(size, p)) else 0;
            k >= 0 && ChildAt(nodes, size, p, NodeOf(size, p) * size + (RankOf(size, p) * WIDTH + j + 1), k + j, k)
  {
    var node, rank := NodeOf(size, p), RankOf(size, p);
    var x := rank * WIDTH + j + 1;
    Kids4Range(size, rank, x);
    Kids4Range(nodes, node, 1);
    NodeBelow(nodes, size, p);
    hide NodeOf, RankOf;
    PeParts(size, node, x);
    Apart(size, node, nodes);
    SpanUpIs(size, p, node * size + x);
  }

  lemma NodeBelow(nodes: nat, size: nat, p: nat)
    requires size > 0 && p < nodes * size
    ensures NodeOf(size, p) < nodes
  {
    Parts(size, p);
    hide NodeOf, RankOf;
    if nodes < NodeOf(size, p) {
      Apart(size, nodes, NodeOf(size, p));
    }
  }

  lemma ChildIndex(nodes: nat, size: nat, p: nat, c: nat, k: nat, r: nat)
    requires size > 0 && p < nodes * size && 0 < c < nodes * size && SpanUp(size, c) == p
    requires k == (if RankOf(size, p) == 0 then Kids4(nodes, NodeOf(size, p)) else 0)
    requires r == Kids4(size, RankOf(size, p))
    ensures var j := IndexFor(size, p, c, k);
            if RankOf(size, c) == 0 then 0 <= j < k && c == (NodeOf(size, p) * WIDTH + j + 1) * size
            else k <= j < k + r && c == NodeOf(size, p) * size + (RankOf(size, p) * WIDTH + (j - k) + 1)
  {
    SpanUpIs(size, p, c);
    Parts(size, c);
    NodeBelow(nodes, size, c);
    hide NodeOf, RankOf;
    if RankOf(size, c) == 0 {
      Kids4Range(nodes, NodeOf(size, p), NodeOf(size, c));
    } else {
      Kids4Range(size, RankOf(size, p), RankOf(size, c));
    }
  }

  // ----- the tree of a collective, over positions 0, 1, ...

  /** The spanning tree, or the tree over a list of PEs. */
  datatype Tree = Span(nodes: nat, size: nat) | Listed(pes: seq<nat>)

  ghost predicate TreeOk(t: Tree) {
    match t
    case Span(nodes, size) => nodes > 0 && size > 0
    case Listed(pes) => pes != [] && Distinct(pes)
  }

  function Size(t: Tree): nat {
    match t
    case Span(nodes, size) => nodes * size
    case Listed(pes) => |pes|
  }

  function Pe(t: Tree, i: nat): nat
    requires i < Size(t)
  {
    if t.Span? then i else t.pes[i]
  }

  ghost function Up(t: Tree, i: nat): int
    requires TreeOk(t)
  {
    if t.Span? then SpanUp(t.size, i) else Up4(i)
  }

  ghost function Kids(t: Tree, i: nat): int
    requires TreeOk(t)
  {
    if t.Span? then SpanKids(t.nodes, t.size, i) else Kids4(|t.pes|, i)
  }

  ghost function KidSet(t: Tree, i: nat): set<nat>
    requires TreeOk(t)
  {
    set c: nat | 0 < c < Size(t) && Up(t, c) == i
  }

  lemma SizePositive(t: Tree)
    requires TreeOk(t)
    ensures Size(t) > 0
  {
    if t.Span? {
      Apart(t.size, 0, t.nodes);
    }
  }

  lemma UpBelow(t: Tree, i: nat)
    requires TreeOk(t)
    ensures i > 0 ==> 0 <= Up(t, i) < i
    ensures i == 0 ==> Up(t, i) == -1
  {
    if i > 0 && t.Span? {
      SpanUpBelow(t.size, i);
    }
  }

  lemma SpanKidCount(nodes: nat, size: nat, p: nat)
    requires size > 0 && p < nodes * size
    ensures |KidSet(Span(nodes, size), p)| == SpanKids(nodes, size, p)
  {
    var node, rank := NodeOf(size, p), RankOf(size, p);
    Kids4Range(nodes, node, 1);
    Kids4Range(size, rank, 1);
    var k: nat := if rank == 0 then Kids4(nodes, node) else 0;
    var r: nat := Kids4(size, rank);
    var cs: seq<nat> := seq(k, j requires 0 <= j < k => (node * WIDTH + j + 1) * size)
                        + seq(r, j requires 0 <= j < r => node * size + (rank * WIDTH + j + 1));
    ChildrenAre(nodes, size, p, cs, k, r);
    SameKids(nodes, size, p, cs);
  }

  lemma SameKids(nodes: nat, size: nat, p: nat, cs: seq<nat>)
    requires size > 0 && nodes > 0 && Distinct(cs)
    requires forall c: nat :: c in cs <==> 0 < c < nodes * size && SpanUp(size, c) == p
    ensures |KidSet(Span(nodes, size), p)| == |cs|
  {
    hide SpanUp, Distinct;
    var t := Span(nodes, size);
    assert Size(t) == nodes * size;
    forall c: nat ensures c in KidSet(t, p) <==> c in cs {
      assert Up(t, c) == SpanUp(size, c);
    }
    SetOfDistinct(cs, KidSet(Span(nodes, size), p));
  }

  lemma ListKidCount(pes: seq<nat>, i: nat)
    requires TreeOk(Listed(pes)) && i < |pes|
    ensures |KidSet(Listed(pes), i)| == Kids4(|pes|, i)
  {
    Kids4Range(|pes|, i, 1);
    var k: nat := Kids4(|pes|, i);
    var cs: seq<nat> := seq(k, j requires 0 <= j < k => i * WIDTH + 1 + j);
    var t := Listed(pes);
    forall c: nat ensures c in KidSet(t, i) <==> c in cs {
      assert Up(t, c) == Up4(c);
      if c > 0 {
        Kids4Range(|pes|, i, c);
        if i * WIDTH + 1 <= c < i * WIDTH + 1 + k {
          assert cs[c - (i * WIDTH + 1)] == c;
        }
      }
    }
    SetOfDistinct(cs, KidSet(t, i));
  }

  /** The child counts the code works with are the numbers of children. */
  lemma KidCount(t: Tree, i: nat)
    requires TreeOk(t) && i < Size(t)
    ensures |KidSet(t, i)| == Kids(t, i)
  {
    match t
    case Span(nodes, size) => SpanKidCount(nodes, size, i);
    case Listed(pes) => ListKidCount(pes, i);
  }

  // ----- subtrees

  /** Position `q` is `i` or leads up to it. */
  ghost predicate Under(t: Tree, i: nat, q: nat)
    requires TreeOk(t)
    decreases q
  {
    UpBelow(t, q);
    q == i || (q > i && Under(t, i, Up(t, q)))
  }

  ghost function Subtree(t: Tree, i: nat): set<nat>
    requires TreeOk(t)
  {
    set q: nat | q < Size(t) && Under(t, i, q)
  }

  lemma {:induction false} UnderVia(t: Tree, i: nat, q: nat) returns (c: nat)
    requires TreeOk(t) && i < q < Size(t) && Under(t, i, q)
    ensures c in KidSet(t, i) && Under(t, c, q)
    decreases q
  {
    UpBelow(t, q);
    if Up(t, q) == i {
      c := q;
    } else {
      c := UnderVia(t, i, Up(t, q));
      UpBelow(t, c);
    }
  }

  lemma {:induction false} UnderUp(t: Tree, i: nat, c: nat, q: nat)
    requires TreeOk(t) && c in KidSet(t, i) && Under(t, c, q)
    ensures Under(t, i, q) && q > i && q >= c
    decreases q
  {
    UpBelow(t, c);
    UpBelow(t, q);
    if q != c {
      UnderUp(t, i, c, Up(t, q));
    }
  }

  /** Subtrees of different children share nothing. */
  lemma {:induction false} UnderOne(t: Tree, i: nat, c: nat, d: nat, q: nat)
    requires TreeOk(t) && c in KidSet(t, i) && d in KidSet(t, i) && Under(t, c, q) && Under(t, d, q)
    ensures c == d
    decreases q
  {
    UpBelow(t, c);
    UpBelow(t, d);
    UpBelow(t, q);
    if q == c && q != d {
      UnderUp(t, i, d, Up(t, q));
    } else if q == d && q != c {
      UnderUp(t, i, c, Up(t, q));
    } else if q != c {
      UnderOne(t, i, c, d, Up(t, q));
    }
  }

  lemma {:induction false} UnderRoot(t: Tree, q: nat)
    requires TreeOk(t)
    ensures Under(t, 0, q)
    decreases q
  {
    UpBelow(t, q);
    if q > 0 {
      UnderRoot(t, Up(t, q));
    }
  }

  /** Everything is under the root. */
  lemma RootSubtree(t: Tree)
    requires TreeOk(t)
    ensures forall q: nat :: q in Subtree(t, 0) <==> q < Size(t)
  {
    forall q: nat ensures Under(t, 0, q) {
      UnderRoot(t, q);
    }
  }
}
