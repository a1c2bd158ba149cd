/** One block of the mempool: its slot headers and free-list heads, and the
    operations of src/mempool.C on them. Each loop of the source is a method here,
    working on a copy of the block's memory. */
module MempoolBlock {
  import opened SizeClasses
  import opened MempoolShape
  import opened MempoolLinks

  // ----- the class to start with

  /** The largest class that fits into `size` bytes. */
  lemma TopClass(size: nat)
    requires 64 <= size < Cut(POWERS)
    ensures var p := ClassOf(size);
            p <= POWERS && (size < Cut(p) ==> 0 < p && Cut(p - 1) <= size < Cut(p))
            && (size >= Cut(p) ==> p < POWERS && size == Cut(p) && size < Cut(p + 1))
  {
    var p := ClassOf(size);
    assert p <= POWERS;
    if p == 0 {
      assert Cut(0) == 64;
    }
  }

  method TopPower(size: nat) returns (power: nat)
    requires 64 <= size < Cut(POWERS)
    ensures power < POWERS && Cut(power) <= size < Cut(power + 1)
  {
    power := WhichPow2(size);
    TopClass(size);
    if size < Cut(power) {
      power := power - 1;
    }
  }

  lemma {:induction false} GreedySkip(at: nat, size: nat, n: nat, m: nat)
    requires size < Cut(n) && n <= m
    ensures Greedy(at, size, m) == Greedy(at, size, n)
    decreases m
  {
    if n < m {
      if n < m - 1 {
        CutIncreases(n, m - 1);
      }
      GreedySkip(at, size, n, m - 1);
    }
  }

  lemma GreedyStep(at: nat, size: nat, n: nat)
    requires 0 < n && size < Cut(n)
    ensures size >= Cut(n - 1) ==>
              && Greedy(at, size, n) == [Tile(at, n - 1, true)] + Greedy(at + Cut(n - 1), size - Cut(n - 1), n - 1)
              && size - Cut(n - 1) < Cut(n - 1)
    ensures size < Cut(n - 1) ==> Greedy(at, size, n) == Greedy(at, size, n - 1)
  {
  }

  // ----- fillblock

  /** Each class's head is the one slot of that class, or null. */
  ghost predicate HeadsOf(heads: seq<nat>, tiles: seq<Tile>) {
    && |heads| == POWERS
    && (forall t :: t in tiles ==> t.power < POWERS && heads[t.power] == t.loc && t.loc > 0)
    && (forall p :: 0 <= p < POWERS && heads[p] != 0 ==> Tile(heads[p], p, true) in tiles)
  }

  function Zeros(n: nat): (s: seq<nat>)
    ensures |s| == n && forall k :: 0 <= k < n ==> s[k] == 0
  {
    if n == 0 then [] else Zeros(n - 1) + [0]
  }

  lemma HeadsStep(heads: seq<nat>, done: seq<Tile>, t: Tile)
    requires HeadsOf(heads, done) && t.power < POWERS && t.loc > 0 && t.free && heads[t.power] == 0
    ensures HeadsOf(heads[t.power := t.loc], done + [t])
  {
    var hs, ts := heads[t.power := t.loc], done + [t];
    forall u | u in ts ensures u.power < POWERS && hs[u.power] == u.loc && u.loc > 0 {
      assert u == t || u in done;
    }
    forall p | 0 <= p < POWERS && hs[p] != 0 ensures Tile(hs[p], p, true) in ts {
      if p == t.power {
        assert ts[|done|] == t;
      }
    }
  }

  method FillHeads(begin: nat, size: nat, power: nat) returns (heads: seq<nat>)
    requires 0 < begin && power < POWERS && size < Cut(power + 1)
    ensures HeadsOf(heads, Greedy(begin, size, POWERS))
  {
    hide Greedy, HeadsOf, Cut;
    heads := Zeros(POWERS);
    var loc: nat, left: nat, i: nat := begin, size, power + 1;
    ghost var done := [];
    NoHeads();
    GreedySkip(begin, size, power + 1, POWERS);
    assert done + Greedy(begin, size, power + 1) == Greedy(begin, size, POWERS);
    while i > 0
      invariant i <= POWERS && left < Cut(i) && loc > 0
      invariant done + Greedy(loc, left, i) == Greedy(begin, size, POWERS)
      invariant HeadsOf(heads, done) && |heads| == POWERS
      invariant forall p :: 0 <= p < i ==> heads[p] == 0
    {
      GreedyStep(loc, left, i);
      i := i - 1;
      if left >= Cut(i) {
        var t := Tile(loc, i, true);
        HeadsStep(heads, done, t);
        heads := heads[i := loc];
        assert done + ([t] + Greedy(loc + Cut(i), left - Cut(i), i)) ==
               (done + [t]) + Greedy(loc + Cut(i), left - Cut(i), i);
        done := done + [t];
        loc, left := loc + Cut(i), left - Cut(i);
      }
    }
    GreedyDone(loc, left);
    assert done + [] == done;
  }

  lemma NoHeads()
    ensures HeadsOf(Zeros(POWERS), [])
  {
  }

  lemma GreedyDone(at: nat, size: nat)
    ensures Greedy(at, size, 0) == []
  {
  }

  /** In a descending chain the next slot to write is the one of class `i`. */
  lemma NextPiece(g: seq<Tile>, n: nat, i: nat, loc: nat, top: nat)
    requires Descending(g, top) && n <= |g| && Tile(loc, i, true) in g
    requires forall k :: 0 <= k < n ==> g[k].power > i
    requires forall k :: n <= k < |g| ==> g[k].power <= i
    ensures n < |g| && g[n] == Tile(loc, i, true)
  {
    var k :| 0 <= k < |g| && g[k] == Tile(loc, i, true);
    assert k >= n && g[n].power >= i;
  }

  /** Writing the header of the next slot and the link to it from the last one. */
  lemma FillStep(m: Memory, a: seq<Tile>, t: Tile, before: nat, was: nat, after: nat, m1: Memory, m2: Memory)
    requires ChainRep(m, a, before, was) && LocsApart(a + [t]) && t.free
    requires m1 == m[t.loc := Slot(Cut(t.power), t.power, 1, LastOr(a, before), after, 0, 0)]
    requires a == [] ==> m2 == m1
    requires a != [] ==> LastOr(a, 0) in m1 && m2 == m1[LastOr(a, 0) := m1[LastOr(a, 0)].(gnext := t.loc)]
    ensures ChainRep(m2, a + [t], before, after)
    ensures LinkOk(m2, t.loc, 0, 0)
    ensures forall x :: x in m && x != t.loc ==> SameLinks(m, m2, x)
    ensures forall x :: x in m && x != t.loc && x != LastOr(a, t.loc) ==> m2[x] == m[x]
  {
    hide ChainRep;
    ApartSnoc(a, t);
    ChainFrame(m, m1, a, before, was);
    if a != [] {
      ChainSetAfter(m1, a, before, was, t.loc);
    } else {
      EmptyChain(m2, before, t.loc);
    }
    ChainSnoc(m2, a, t, before, after);
  }

  lemma ApartSnoc(a: seq<Tile>, t: Tile)
    requires LocsApart(a + [t])
    ensures LocsApart(a) && forall k :: 0 <= k < |a| ==> a[k].loc != t.loc
  {
    var s := a + [t];
    assert forall k :: 0 <= k < |a| ==> s[k] == a[k];
    assert s[|a|] == t;
  }

  /** The first `n` slots of `g` are written; the last one's outer link is `after`. */
  ghost predicate Filling(m: Memory, g: seq<Tile>, n: nat, after: nat) {
    && n <= |g| && ChainRep(m, g[..n], 0, after)
    && (forall k :: 0 <= k < n ==> LinkOk(m, g[k].loc, 0, 0))
  }

  /** The first `n` slots of `g` are those of class `i` and above. */
  ghost predicate Reached(g: seq<Tile>, n: nat, i: nat) {
    && n <= |g|
    && (forall k :: 0 <= k < n ==> g[k].power >= i)
    && (forall k :: n <= k < |g| ==> g[k].power < i)
  }

  lemma ReachedNext(heads: seq<nat>, g: seq<Tile>, n: nat, i: nat, top: nat)
    requires HeadsOf(heads, g) && Descending(g, top) && Reached(g, n, i + 1) && i < POWERS
    ensures heads[i] != 0 ==> n < |g| && g[n] == Tile(heads[i], i, true) && Reached(g, n + 1, i)
    ensures heads[i] == 0 ==> Reached(g, n, i)
  {
    if heads[i] != 0 {
      NextPiece(g, n, i, heads[i], top);
    } else {
      assert forall k :: n <= k < |g| ==> g[k] in g;
    }
  }

  lemma FillingStep(m: Memory, g: seq<Tile>, n: nat, was: nat, after: nat, m1: Memory, m2: Memory)
    requires Filling(m, g, n, was) && n < |g| && LocsApart(g) && g[n].free
    requires m1 == m[g[n].loc := Slot(Cut(g[n].power), g[n].power, 1, LastOr(g[..n], 0), after, 0, 0)]
    requires n == 0 ==> m2 == m1
    requires n > 0 ==> g[n - 1].loc in m1 && m2 == m1[g[n - 1].loc := m1[g[n - 1].loc].(gnext := g[n].loc)]
    ensures Filling(m2, g, n + 1, after)
  {
    hide ChainRep;
    assert g[..n + 1] == g[..n] + [g[n]];
    FillStep(m, g[..n], g[n], 0, was, after, m1, m2);
    forall k | 0 <= k < n ensures LinkOk(m2, g[k].loc, 0, 0) {
      assert LinkOk(m, g[k].loc, 0, 0) && SameLinks(m, m2, g[k].loc);
    }
  }

  lemma FillingStart(m: Memory, g: seq<Tile>, top: nat)
    requires Descending(g, top)
    ensures Filling(m, g, 0, 0) && Reached(g, 0, top)
  {
    assert g[..0] == [];
  }

  lemma FillingEnd(m: Memory, g: seq<Tile>, n: nat, after: nat)
    requires Filling(m, g, n, after) && Reached(g, n, 0) && g != [] && LocsApart(g)
    ensures n == |g| && g[n - 1].loc in m
    ensures ChainRep(m[g[n - 1].loc := m[g[n - 1].loc].(gnext := 0)], g, 0, 0)
    ensures forall k :: 0 <= k < |g| ==> LinkOk(m[g[n - 1].loc := m[g[n - 1].loc].(gnext := 0)], g[k].loc, 0, 0)
  {
    hide ChainRep;
    assert n < |g| ==> g[n].power < 0;
    assert g[..n] == g;
    ChainSetAfter(m, g, 0, after, 0);
  }

  /** fillblock's second loop: the headers, largest slot first. */
  method FillChain(m0: Memory, power: nat, heads: seq<nat>, ghost g: seq<Tile>) returns (m: Memory)
    requires HeadsOf(heads, g) && Descending(g, power + 1) && LocsApart(g) && power < POWERS
    requires g != [] && g[0].power == power
    ensures ChainRep(m, g, 0, 0)
    ensures forall k :: 0 <= k < |g| ==> LinkOk(m, g[k].loc, 0, 0)
  {
    hide ChainRep, Filling, Reached, Descending, LocsApart, HeadsOf, Cut;
    m := m0;
    var prev: nat, i: nat := 0, power + 1;
    ghost var n: nat, after: nat := 0, 0;
    FillingStart(m, g, power + 1);
    TopFirst(heads, g, power);
    while i > 0
      invariant i <= power + 1 && (n == 0 <==> i == power + 1)
      invariant Filling(m, g, n, after) && Reached(g, n, i) && n <= |g|
      invariant prev == LastOr(g[..n], 0)
    {
      i := i - 1;
      ReachedNext(heads, g, n, i, power + 1);
      if heads[i] != 0 {
        var x := heads[i];
        ghost var m1, was := m, after;
        if n > 0 {
          FillingHas(m, g, n, after);
        }
        var gnext := if x in m then m[x].gnext else 0;
        after := gnext;
        m := m[x := Slot(Cut(i), i, 1, prev, gnext, 0, 0)];
        ghost var m2 := m;
        if i != power {
          m := m[prev := m[prev].(gnext := x)];
        }
        FillingStep(m1, g, n, was, after, m2, m);
        prev := x;
        n := n + 1;
      }
    }
    FillingEnd(m, g, n, after);
    m := m[prev := m[prev].(gnext := 0)];
  }

  lemma TopFirst(heads: seq<nat>, g: seq<Tile>, power: nat)
    requires HeadsOf(heads, g) && g != [] && g[0].power == power
    ensures power < |heads| == POWERS && heads[power] != 0
  {
    assert g[0] in g;
  }

  lemma FillingHas(m: Memory, g: seq<Tile>, n: nat, after: nat)
    requires Filling(m, g, n, after) && 0 < n
    ensures n <= |g| && g[n - 1].loc in m && LastOr(g[..n], 0) == g[n - 1].loc
  {
    ChainHas(m, g[..n], n - 1, 0, after);
  }

  lemma EmptyChain(m: Memory, before: nat, after: nat)
    ensures ChainRep(m, [], before, after)
  {
  }

  lemma ChainHas(m: Memory, tiles: seq<Tile>, k: nat, before: nat, after: nat)
    requires ChainRep(m, tiles, before, after) && k < |tiles|
    ensures TileOk(m, tiles[k], LocBefore(tiles, k, before), LocAfter(tiles, k, after))
  {
  }
}
