/** checkblock and the end of mempool_malloc (src/mempool.C): breaking a larger free
    slot until one of the wanted class exists, and taking that one. */
module MempoolSplit {
  import opened Collections
  import opened SizeClasses
  import opened MempoolShape
  import opened MempoolLinks
  import opened MempoolBlock
  import opened MempoolFree

  // ----- the pieces of a split and the lists they make

  lemma {:induction false} LadderLocs(at: nat, i: nat, q: nat)
    requires i <= q
    ensures var l := Ladder(at, i, q);
            && |l| == q - i && (l != [] ==> l[0].loc == at)
            && (forall k :: 0 <= k < |l| ==> l[k].power == i + k && l[k].free)
            && (forall k :: 0 < k < |l| ==> l[k].loc == l[k - 1].loc + Cut(l[k - 1].power))
    decreases q - i
  {
    if i < q {
      LadderLocs(at + Cut(i), i + 1, q);
    }
  }

  lemma {:induction false} AppendLadder(lists: seq<seq<nat>>, at: nat, i: nat, q: nat)
    requires i <= q <= |lists|
    ensures var l, ls := Ladder(at, i, q), AppendAll(lists, Ladder(at, i, q));
            && |l| == q - i
            && (forall r :: 0 <= r < |lists| && !(i <= r < q) ==> ls[r] == lists[r])
            && (forall r :: i <= r < q ==> ls[r] == lists[r] + [l[r - i].loc])
    decreases q - i
  {
    if i < q {
      var l := Ladder(at, i, q);
      assert l[1..] == Ladder(at + Cut(i), i + 1, q);
      AppendLadder(lists[i := lists[i] + [at]], at + Cut(i), i + 1, q);
    }
  }

  lemma AppendCons(lists: seq<seq<nat>>, t: Tile, rest: seq<Tile>)
    requires t.power < |lists|
    ensures AppendAll(lists, [t] + rest) == AppendAll(lists[t.power := lists[t.power] + [t.loc]], rest)
  {
    assert ([t] + rest)[1..] == rest;
  }

  /** The lists after a split: two slots of class `p`, one of each class up to
      `q`, and one less of class `q`. */
  lemma AppendPieces(lists: seq<seq<nat>>, at: nat, p: nat, q: nat)
    requires p < q < |lists| && forall r :: p <= r < q ==> lists[r] == []
    ensures var l, ls := Ladder(at + Cut(p), p, q), AppendAll(lists, Pieces(at, p, q));
            && |l| == q - p && l[0].loc == at + Cut(p)
            && ls[p] == [at, l[0].loc]
            && (forall r :: p < r < q ==> ls[r] == [l[r - p].loc])
            && (forall r :: 0 <= r < |lists| && !(p <= r < q) ==> ls[r] == lists[r])
  {
    hide AppendAll, Ladder, Cut;
    AppendCons(lists, Tile(at, p, true), Ladder(at + Cut(p), p, q));
    AppendLadder(lists[p := lists[p] + [at]], at + Cut(p), p, q);
    LadderLocs(at + Cut(p), p, q);
  }

  // ----- the free-list heads

  ghost predicate SplitHeadsOk(heads0: seq<nat>, heads: seq<nat>, p: nat, q: nat, loc: nat, next: nat, l: seq<Tile>) {
    && |heads| == |heads0| && p < q < |heads| && |l| == q - p
    && heads[p] == loc && heads[q] == next
    && (forall r :: p < r < q ==> heads[r] == l[r - p].loc)
    && (forall r :: 0 <= r < |heads| && !(p <= r <= q) ==> heads[r] == heads0[r])
  }

  method SplitHeads(heads0: seq<nat>, p: nat, q: nat, loc: nat, next: nat) returns (heads: seq<nat>)
    requires p < q < |heads0|
    ensures SplitHeadsOk(heads0, heads, p, q, loc, next, Ladder(loc + Cut(p), p, q))
  {
    hide Ladder;
    ghost var l := Ladder(loc + Cut(p), p, q);
    LadderLocs(loc + Cut(p), p, q);
    heads := heads0[q := next];
    heads := heads[p := loc];
    var at := loc + Cut(p);
    var i := p + 1;
    while i < q
      invariant p < i <= q && |heads| == |heads0| && at == l[i - 1 - p].loc
      invariant heads[p] == loc && heads[q] == next
      invariant forall r :: p < r < i ==> heads[r] == l[r - p].loc
      invariant forall r :: 0 <= r < |heads| && !(p <= r < i) && r != q ==> heads[r] == heads0[r]
    {
      at := at + Cut(i - 1);
      heads := heads[i := at];
      i := i + 1;
    }
  }

  // ----- the headers of the pieces

  /** The first `n` pieces are written: linked to each other, and to free-list
      neighbours only where the first one leads to the second. */
  ghost predicate Splitting(m0: Memory, m: Memory, g: seq<Tile>, n: nat, before: nat, after: nat, lo: nat, hi: nat) {
    && 1 <= n <= |g| && |g| >= 2
    && ChainRep(m, g[..n], before, after)
    && LinkOk(m, g[0].loc, 0, g[1].loc)
    && (forall k :: 1 <= k < n ==> LinkOk(m, g[k].loc, 0, 0))
    && (forall x: nat :: !(lo <= x < hi) && x in m0 ==> x in m && m[x] == m0[x])
  }

  lemma SplittingStep(m0: Memory, m: Memory, g: seq<Tile>, n: nat, before: nat, was: nat, after: nat,
                      lo: nat, hi: nat, m1: Memory, m2: Memory)
    requires Splitting(m0, m, g, n, before, was, lo, hi) && n < |g| && Tiling(g, lo, hi) && g[n].free
    requires m1 == m[g[n].loc := Slot(Cut(g[n].power), g[n].power, 1, g[n - 1].loc, after, 0, 0)]
    requires g[n - 1].loc in m1 && m2 == m1[g[n - 1].loc := m1[g[n - 1].loc].(gnext := g[n].loc)]
    ensures Splitting(m0, m2, g, n + 1, before, after, lo, hi)
  {
    hide ChainRep, Tiling, Cut;
    TilingApart(g, lo, hi);
    TilingWithin(g, lo, hi);
    assert g[..n + 1] == g[..n] + [g[n]];
    FillStep(m, g[..n], g[n], before, was, after, m1, m2);
    SplittingLinks(m, m2, g, n);
  }

  lemma SplittingLinks(m: Memory, m2: Memory, g: seq<Tile>, n: nat)
    requires 1 <= n < |g| && LocsApart(g)
    requires LinkOk(m, g[0].loc, 0, g[1].loc) && forall k :: 1 <= k < n ==> LinkOk(m, g[k].loc, 0, 0)
    requires forall x :: x in m && x != g[n].loc ==> SameLinks(m, m2, x)
    ensures LinkOk(m2, g[0].loc, 0, g[1].loc) && forall k :: 1 <= k < n ==> LinkOk(m2, g[k].loc, 0, 0)
  {
    assert SameLinks(m, m2, g[0].loc);
    forall k | 1 <= k < n ensures LinkOk(m2, g[k].loc, 0, 0) {
      assert LinkOk(m, g[k].loc, 0, 0) && SameLinks(m, m2, g[k].loc);
    }
  }

  lemma SplittingStart(m: Memory, g: seq<Tile>, before: nat, lo: nat, hi: nat, h: Slot)
    requires |g| >= 2 && g[0].loc == lo < hi && lo in m && h.prev == 0 && h.next == g[1].loc
    requires h.gprev == before && h.size == Cut(g[0].power) && h.power == g[0].power && h.status == 1 && g[0].free
    ensures Splitting(m, m[lo := h], g, 1, before, h.gnext, lo, hi)
  {
    assert g[..1] == [g[0]];
  }

  lemma SplittingHas(m0: Memory, m: Memory, g: seq<Tile>, n: nat, before: nat, after: nat, lo: nat, hi: nat)
    requires Splitting(m0, m, g, n, before, after, lo, hi)
    ensures g[n - 1].loc in m
  {
    ChainHas(m, g[..n], n - 1, before, after);
  }

  /** The pieces follow each other, of classes p, p, p + 1, ... */
  lemma PieceAt(loc: nat, p: nat, q: nat, n: nat)
    requires p < q && n < q - p
    ensures var g := Pieces(loc, p, q);
            && |g| == q - p + 1 && g[0] == Tile(loc, p, true) && g[1].loc == loc + Cut(p)
            && g[n + 1] == Tile(if n == 0 then loc + Cut(p) else g[n].loc + Cut(p + n - 1), p + n, true)
  {
    hide Ladder, Cut;
    LadderLocs(loc + Cut(p), p, q);
    var l, g := Ladder(loc + Cut(p), p, q), Pieces(loc, p, q);
    assert g[n + 1] == l[n];
    if n > 0 {
      assert g[n] == l[n - 1];
    }
  }

  /** The second loop of checkblock. */
  method SplitChain(m0: Memory, p: nat, q: nat, loc: nat, ghost before: nat)
    returns (m: Memory, last: nat, ghost after: nat)
    requires p < q < POWERS && loc in m0
    requires m0[loc].gprev == before && m0[loc].status == 1 && m0[loc].prev == 0
    ensures var g := Pieces(loc, p, q);
            Splitting(m0, m, g, |g|, before, after, loc, loc + Cut(q)) && last == g[|g| - 1].loc
  {
    hide Pieces, ChainRep, Splitting, Tiling, Cut;
    ghost var g, hi := Pieces(loc, p, q), loc + Cut(q);
    PieceAt(loc, p, q, 0);
    PiecesTiling(loc, p, q);
    CutMultiple(q);
    var h := m0[loc].(size := Cut(p), power := p, next := loc + Cut(p));
    m := m0[loc := h];
    after := h.gnext;
    SplittingStart(m0, g, before, loc, hi, h);
    var prev, head := loc, loc + Cut(p);
    var i := p;
    while i < q
      invariant p <= i <= q && Splitting(m0, m, g, i - p + 1, before, after, loc, hi)
      invariant prev == g[i - p].loc && head == (if i == p then loc + Cut(p) else prev)
    {
      PieceAt(loc, p, q, i - p);
      if i != p {
        head := head + Cut(i - 1);
      }
      SplittingHas(m0, m, g, i - p + 1, before, after, loc, hi);
      ghost var m1, was := m, after;
      var gnext := if head in m then m[head].gnext else 0;
      after := gnext;
      m := m[head := Slot(Cut(i), i, 1, prev, gnext, 0, 0)];
      ghost var m2 := m;
      m := m[prev := m[prev].(gnext := head)];
      SplittingStep(m0, m1, g, i - p + 1, before, was, after, loc, hi, m2, m);
      prev := if i != p then prev + Cut(i - 1) else prev + Cut(i);
      i := i + 1;
    }
    last := head;
  }

  // ----- putting a split together

  /** A chain of three stretches. */
  lemma Join(m: Memory, a: seq<Tile>, g: seq<Tile>, c: seq<Tile>)
    requires g != []
    requires ChainRep(m, a, 0, g[0].loc) && ChainRep(m, g, LastOr(a, 0), FirstOr(c, 0))
    requires ChainRep(m, c, LastOr(g, 0), 0)
    ensures ChainRep(m, a + g + c, 0, 0)
  {
    hide ChainRep;
    ChainConcat(m, a, g, 0, FirstOr(c, 0));
    ChainConcat(m, a + g, c, 0, 0);
    assert LastOr(a + g, 0) == LastOr(g, 0);
  }

  /** The writes after the loops: the second piece's list link, the links across
      the end of the split slot, and the new head of the list it came from. */
  function Finished(m: Memory, second: nat, first: nat, last: nat, gnext: nat, head: nat): Memory
    requires second in m && last in m
  {
    var m1 := m[second := m[second].(prev := first)];
    var m2 := m1[last := m1[last].(gnext := gnext)];
    var m3 := if gnext != 0 && gnext in m2 then m2[gnext := m2[gnext].(gprev := last)] else m2;
    if head != 0 && head in m3 then m3[head := m3[head].(prev := 0)] else m3
  }

  lemma FinishedChain(m0: Memory, m: Memory, a: seq<Tile>, g: seq<Tile>, c: seq<Tile>, was: nat, after: nat,
                      lo: nat, hi: nat, head: nat)
    requires ChainRep(m0, a, 0, lo) && ChainRep(m0, c, was, 0) && Tiling(g, lo, hi)
    requires Splitting(m0, m, g, |g|, LastOr(a, 0), after, lo, hi)
    requires forall k :: 0 <= k < |a| ==> a[k].loc < lo
    requires forall k :: 0 <= k < |c| ==> c[k].loc >= hi
    requires c != [] ==> c[0].loc == hi
    requires LocsApart(c) && 0 < lo
    ensures g[1].loc in m && g[|g| - 1].loc in m
    ensures ChainRep(Finished(m, g[1].loc, g[0].loc, g[|g| - 1].loc, FirstOr(c, 0), head), a + g + c, 0, 0)
  {
    hide ChainRep, Tiling, LocsApart;
    var last, gnext := g[|g| - 1].loc, FirstOr(c, 0);
    assert g[..|g|] == g;
    TilingApart(g, lo, hi);
    FirstLoc(g, lo, hi);
    TilingWithin(g, lo, hi);
    ChainHas(m, g, 1, LastOr(a, 0), after);
    ChainHas(m, g, |g| - 1, LastOr(a, 0), after);
    ChainFrame(m0, m, a, 0, lo);
    ChainFrame(m0, m, c, was, 0);
    var m1 := m[g[1].loc := m[g[1].loc].(prev := g[0].loc)];
    ChainFrame(m, m1, g, LastOr(a, 0), after);
    ChainSetAfter(m1, g, LastOr(a, 0), after, gnext);
    var m2 := m1[last := m1[last].(gnext := gnext)];
    ChainFrame(m, m2, a, 0, lo);
    ChainFrame(m, m2, c, was, 0);
    var m3 := if gnext != 0 && gnext in m2 then m2[gnext := m2[gnext].(gprev := last)] else m2;
    if c != [] {
      ChainHas(m2, c, 0, was, 0);
      ChainSetBefore(m2, c, was, 0, last);
    } else {
      EmptyChain(m3, last, 0);
    }
    ChainFrame(m2, m3, a, 0, lo);
    ChainFrame(m2, m3, g, LastOr(a, 0), gnext);
    Join(m3, a, g, c);
    ChainFrame(m3, Finished(m, g[1].loc, g[0].loc, last, gnext, head), a + g + c, 0, 0);
  }

  /** The free-list links after `Finished`. */
  lemma FinishedLinks(m0: Memory, m: Memory, g: seq<Tile>, before: nat, after: nat,
                      lo: nat, hi: nat, gnext: nat, head: nat)
    requires Splitting(m0, m, g, |g|, before, after, lo, hi) && Tiling(g, lo, hi)
    requires (gnext == 0 || gnext >= hi) && (head != 0 ==> !(lo <= head < hi) && head in m0)
    ensures g[1].loc in m && g[|g| - 1].loc in m
    ensures var m' := Finished(m, g[1].loc, g[0].loc, g[|g| - 1].loc, gnext, head);
            && LinkOk(m', g[0].loc, 0, g[1].loc) && LinkOk(m', g[1].loc, g[0].loc, 0)
            && (forall k :: 2 <= k < |g| ==> LinkOk(m', g[k].loc, 0, 0))
            && (forall x: nat :: !(lo <= x < hi) && x != head ==> SameLinks(m0, m', x))
            && (head != 0 ==> LinkOk(m', head, 0, m0[head].next))
  {
    hide Tiling, ChainRep;
    TilingApart(g, lo, hi);
    TilingWithin(g, lo, hi);
    FirstLoc(g, lo, hi);
    SplittingHas(m0, m, g, |g|, before, after, lo, hi);
    assert LinkOk(m, g[1].loc, 0, 0);
    var m' := Finished(m, g[1].loc, g[0].loc, g[|g| - 1].loc, gnext, head);
    forall k | 2 <= k < |g| ensures LinkOk(m', g[k].loc, 0, 0) {
      assert LinkOk(m, g[k].loc, 0, 0);
      assert g[k].loc != g[1].loc;
    }
  }

  /** A list without its first element, once the next one has become its head. */
  lemma TailRep(m: Memory, m': Memory, s: seq<nat>)
    requires ListRep(m, s) && Distinct(s) && s != []
    requires |s| > 1 ==> LinkOk(m', s[1], 0, NextOn(s, 1))
    requires forall j :: 2 <= j < |s| ==> SameLinks(m, m', s[j])
    ensures ListRep(m', s[1..])
  {
    var t := s[1..];
    forall j | 0 <= j < |t| ensures LinkOk(m', t[j], PrevOn(t, j), NextOn(t, j)) {
      if j > 0 {
        assert LinkOk(m, s[j + 1], PrevOn(s, j + 1), NextOn(s, j + 1));
        assert SameLinks(m, m', s[j + 1]);
      }
    }
  }

  /** All listed slots but the split one lie outside it. */
  ghost predicate OffBut(lists: seq<seq<nat>>, lo: nat, hi: nat) {
    forall r, x :: 0 <= r < |lists| && x in lists[r] && x != lo ==> !(lo <= x < hi)
  }

  lemma ListElem(m: Memory, heads: seq<nat>, lists: seq<seq<nat>>, r: nat, j: nat)
    requires ListsRep(m, heads, lists) && r < |lists| && j < |lists[r]|
    ensures LinkOk(m, lists[r][j], PrevOn(lists[r], j), NextOn(lists[r], j)) && lists[r][j] in lists[r]
  {
    ListHas(m, lists[r], j);
  }

  /** The list the split slot came from. */
  lemma FinishedTail(m0: Memory, m': Memory, heads0: seq<nat>, lists: seq<seq<nat>>, q: nat,
                     lo: nat, hi: nat, head: nat)
    requires ListsRep(m0, heads0, lists) && ListsApart(lists) && q < |lists|
    requires lists[q] != [] && lists[q][0] == lo && head == HeadOf(lists[q][1..]) && OffBut(lists, lo, hi)
    requires forall x: nat :: !(lo <= x < hi) && x != head ==> SameLinks(m0, m', x)
    requires head != 0 ==> head in m0 && LinkOk(m', head, 0, m0[head].next)
    ensures ListRep(m', lists[q][1..])
  {
    hide ListRep;
    var s := lists[q];
    assert ListRep(m0, s);
    if |s| > 1 {
      ListElem(m0, heads0, lists, q, 1);
    }
    forall j | 2 <= j < |s| ensures SameLinks(m0, m', s[j]) {
      assert s[j] in lists[q] && s[j] != s[0] && s[j] != s[1];
    }
    TailRep(m0, m', s);
  }

  /** The lists that the split does not touch. */
  lemma FinishedOther(m0: Memory, m': Memory, heads0: seq<nat>, lists: seq<seq<nat>>, q: nat, r: nat,
                      lo: nat, hi: nat, head: nat)
    requires ListsRep(m0, heads0, lists) && ListsApart(lists) && q < |lists| && r < |lists| && r != q
    requires lists[q] != [] && lists[q][0] == lo && head == HeadOf(lists[q][1..]) && OffBut(lists, lo, hi)
    requires forall x: nat :: !(lo <= x < hi) && x != head ==> SameLinks(m0, m', x)
    ensures ListRep(m', lists[r])
  {
    hide ListRep;
    forall x | x in lists[r] ensures SameLinks(m0, m', x) {
      assert lo in lists[q];
      assert 0 !in lists[r];
      if head != 0 {
        assert head == lists[q][1] && head in lists[q];
      }
    }
    ListFrame(m0, m', lists[r]);
  }

  lemma OneRep(m: Memory, x: nat)
    requires LinkOk(m, x, 0, 0)
    ensures ListRep(m, [x])
  {
  }

  lemma TwoRep(m: Memory, x: nat, y: nat)
    requires LinkOk(m, x, 0, y) && LinkOk(m, y, x, 0)
    ensures ListRep(m, [x, y])
  {
  }

  lemma FinishedLists(m0: Memory, m': Memory, heads0: seq<nat>, heads: seq<nat>, lists: seq<seq<nat>>,
                      p: nat, q: nat, lo: nat, hi: nat, head: nat)
    requires ListsRep(m0, heads0, lists) && ListsApart(lists) && p < q < |lists| && OffBut(lists, lo, hi)
    requires forall r :: p <= r < q ==> lists[r] == []
    requires lists[q] != [] && lists[q][0] == lo && head == HeadOf(lists[q][1..])
    requires SplitHeadsOk(heads0, heads, p, q, lo, head, Ladder(lo + Cut(p), p, q))
    requires var g := Pieces(lo, p, q);
             && |g| >= 2 && LinkOk(m', g[0].loc, 0, g[1].loc) && LinkOk(m', g[1].loc, g[0].loc, 0)
             && (forall k :: 2 <= k < |g| ==> LinkOk(m', g[k].loc, 0, 0))
    requires forall x: nat :: !(lo <= x < hi) && x != head ==> SameLinks(m0, m', x)
    requires head != 0 ==> head in m0 && LinkOk(m', head, 0, m0[head].next)
    ensures ListsRep(m', heads, AppendAll(lists[q := lists[q][1..]], Pieces(lo, p, q)))
  {
    hide ListRep, Ladder, AppendAll, Cut, SameLinks, LinkOk, ListsApart, OffBut;
    var g, l := Pieces(lo, p, q), Ladder(lo + Cut(p), p, q);
    var lists1 := lists[q := lists[q][1..]];
    var ls := AppendAll(lists1, g);
    AppendPieces(lists1, lo, p, q);
    TwoRep(m', g[0].loc, g[1].loc);
    FinishedTail(m0, m', heads0, lists, q, lo, hi, head);
    forall r | 0 <= r < |ls| ensures heads[r] == HeadOf(ls[r]) && ListRep(m', ls[r]) {
      if p < r < q {
        assert g[r - p + 1] == l[r - p];
        OneRep(m', l[r - p].loc);
      } else if r != p && r != q {
        FinishedOther(m0, m', heads0, lists, q, r, lo, hi, head);
      }
    }
  }

  lemma ListedOff(lists: seq<seq<nat>>, a: seq<Tile>, t: Tile, c: seq<Tile>, lo: nat, hi: nat)
    requires Covers(lists, Set(a + [t] + c)) && t.loc == lo
    requires forall k :: 0 <= k < |a| ==> a[k].loc < lo
    requires forall k :: 0 <= k < |c| ==> c[k].loc >= hi
    ensures OffBut(lists, lo, hi)
  {
    forall r, x | 0 <= r < |lists| && x in lists[r] && x != lo ensures !(lo <= x < hi) {
      var u := Tile(x, r, true);
      assert u in Set(a + [t] + c);
      assert u in a || u == t || u in c;
    }
  }

  /** Everything the split of the first slot of class `q` needs to know about it. */
  lemma SplitFacts(m: Memory, heads: seq<nat>, s: Shape, q: nat, begin: nat, end: nat,
                   k: nat, a: seq<Tile>, c: seq<Tile>)
    requires Valid(s, begin, end) && BlockRep(m, heads, s) && q < POWERS && s.lists[q] != []
    requires k == IndexOf(s.tiles, s.lists[q][0]) < |s.tiles| && a == s.tiles[..k] && c == s.tiles[k + 1..]
    ensures ListsApart(s.lists) && OffBut(s.lists, s.lists[q][0], s.lists[q][0] + Cut(q))
    ensures ChainRep(m, a, 0, s.lists[q][0]) && ChainRep(m, c, s.lists[q][0], 0)
    ensures TileOk(m, Tile(s.lists[q][0], q, true), LastOr(a, 0), FirstOr(c, 0))
    ensures forall k :: 0 <= k < |a| ==> a[k].loc < s.lists[q][0]
    ensures forall k :: 0 <= k < |c| ==> c[k].loc >= s.lists[q][0] + Cut(q)
    ensures c != [] ==> c[0].loc == s.lists[q][0] + Cut(q)
    ensures LocsApart(c) && 0 < s.lists[q][0]
  {
    hide ChainRep, ListsRep, Tiling, Covers, Cut, Set, LocsApart, LocsUnique, ListsApart;
    hide IndexOf, Bytes, TileOk, OffBut;
    ListedTile(s, q, begin, end);
    CoversLength(s.lists, Set(s.tiles));
    var t := s.tiles[k];
    assert s.tiles == a + [t] + c;
    BytesOne(t);
    Around(a, [t], c, begin, end);
    ChainAround(m, a, [t], c);
    ChainHas(m, [t], 0, LastOr(a, 0), FirstOr(c, 0));
    ListedOff(s.lists, a, t, c, t.loc, t.loc + Cut(q));
    TilingUnique(s.tiles, begin, end);
    SetPositive(s.tiles, begin, end);
    CoversApart(s.lists, Set(s.tiles));
  }

  /** checkblock's split of the first free slot of class `q`. */
  method SplitSlot(m0: Memory, heads0: seq<nat>, p: nat, q: nat, ghost s: Shape, ghost begin: nat, ghost end: nat)
    returns (m: Memory, heads: seq<nat>)
    requires Valid(s, begin, end) && BlockRep(m0, heads0, s) && p < q < POWERS && s.lists[q] != []
    requires forall r :: p <= r < q ==> s.lists[r] == []
    ensures IndexOf(s.tiles, s.lists[q][0]) < |s.tiles|
    ensures BlockRep(m, heads, Split(s, p, q))
  {
    hide ChainRep, Tiling, Covers, Cut, Set, LocsApart, ListsApart, IndexOf, Ladder, AppendAll, ListRep, OffBut,
         Splitting, SplitHeadsOk, SameLinks;
    ListedTile(s, q, begin, end);
    CoversLength(s.lists, Set(s.tiles));
    ghost var k := IndexOf(s.tiles, s.lists[q][0]);
    ghost var a, c := s.tiles[..k], s.tiles[k + 1..];
    SplitFacts(m0, heads0, s, q, begin, end, k, a, c);
    ListElem(m0, heads0, s.lists, q, 0);
    var loc := heads0[q];
    var gnext, next := m0[loc].gnext, m0[loc].next;
    NextHead(m0, heads0, s.lists, q);
    hide ListsRep;
    heads := SplitHeads(heads0, p, q, loc, next);
    var last;
    ghost var after;
    m, last, after := SplitChain(m0, p, q, loc, LastOr(a, 0));
    ghost var g, hi := Pieces(loc, p, q), loc + Cut(q);
    PiecesTiling(loc, p, q);
    NextOff(s.lists, q, loc, hi);
    FinishedChain(m0, m, a, g, c, loc, after, loc, hi, next);
    FinishedLinks(m0, m, g, LastOr(a, 0), after, loc, hi, gnext, next);
    LadderFirst(loc, p, q);
    ghost var m1 := m;
    m := Finish(m, loc + Cut(p), loc, last, gnext, next);
    FinishedLists(m0, m, heads0, heads, s.lists, p, q, loc, hi, next);
  }

  lemma NextHead(m: Memory, heads: seq<nat>, lists: seq<seq<nat>>, q: nat)
    requires ListsRep(m, heads, lists) && q < |lists| && lists[q] != []
    ensures heads[q] == lists[q][0] && heads[q] in m && m[heads[q]].prev == 0
    ensures m[heads[q]].next == HeadOf(lists[q][1..])
    ensures m[heads[q]].next != 0 ==> m[heads[q]].next in m && m[heads[q]].next in lists[q]
  {
    ListElem(m, heads, lists, q, 0);
    if |lists[q]| > 1 {
      ListElem(m, heads, lists, q, 1);
    }
  }

  lemma NextOff(lists: seq<seq<nat>>, q: nat, lo: nat, hi: nat)
    requires ListsApart(lists) && OffBut(lists, lo, hi) && q < |lists| && lists[q] != [] && lists[q][0] == lo
    ensures var next := HeadOf(lists[q][1..]); next != 0 ==> !(lo <= next < hi)
  {
    if |lists[q]| > 1 {
      assert lists[q][1] in lists[q] && lists[q][1] != lists[q][0];
    }
  }

  lemma LadderFirst(loc: nat, p: nat, q: nat)
    requires p < q
    ensures var g := Pieces(loc, p, q); |g| >= 2 && g[0].loc == loc && g[1].loc == loc + Cut(p)
  {
  }

  method Finish(m0: Memory, second: nat, first: nat, last: nat, gnext: nat, head: nat) returns (m: Memory)
    requires second in m0 && last in m0
    ensures m == Finished(m0, second, first, last, gnext, head)
  {
    m := m0[second := m0[second].(prev := first)];
    m := m[last := m[last].(gnext := gnext)];
    if gnext != 0 && gnext in m {
      m := m[gnext := m[gnext].(gprev := last)];
    }
    if head != 0 && head in m {
      m := m[head := m[head].(prev := 0)];
    }
  }

  /** The shape checkblock leaves: a slot of class `p` is free if any large enough
      one was. */
  function Checked(s: Shape, p: nat): Shape
    requires |s.lists| == POWERS && p < POWERS
    requires forall q :: 0 <= q < POWERS && s.lists[q] != [] ==> IndexOf(s.tiles, s.lists[q][0]) < |s.tiles|
  {
    var q := FirstFit(s.lists, p);
    if p < q < POWERS then Split(s, p, q) else s
  }

  lemma CheckedReady(s: Shape, begin: nat, end: nat)
    requires Valid(s, begin, end)
    ensures |s.lists| == POWERS
    ensures forall q :: 0 <= q < POWERS && s.lists[q] != [] ==> IndexOf(s.tiles, s.lists[q][0]) < |s.tiles|
  {
    hide Tiling;
    forall q | 0 <= q < POWERS && s.lists[q] != [] ensures IndexOf(s.tiles, s.lists[q][0]) < |s.tiles| {
      ListedTile(s, q, begin, end);
    }
  }

  lemma HeadZero(m: Memory, heads: seq<nat>, s: Shape, begin: nat, end: nat, p: nat)
    requires Valid(s, begin, end) && BlockRep(m, heads, s) && p < POWERS
    ensures |heads| == POWERS && (heads[p] == 0 <==> s.lists[p] == [])
  {
    hide Tiling, ChainRep, ListRep, Cut;
    if s.lists[p] != [] {
      ListedTile(s, p, begin, end);
      TilingPositive(s.tiles, begin, end);
    }
  }

  method CheckBlock(m0: Memory, heads0: seq<nat>, power: nat, ghost s: Shape, ghost begin: nat, ghost end: nat)
    returns (m: Memory, heads: seq<nat>, ok: bool)
    requires Valid(s, begin, end) && BlockRep(m0, heads0, s) && power < POWERS
    ensures |s.lists| == POWERS
    ensures forall q :: 0 <= q < POWERS && s.lists[q] != [] ==> IndexOf(s.tiles, s.lists[q][0]) < |s.tiles|
    ensures BlockRep(m, heads, Checked(s, power))
    ensures ok <==> FirstFit(s.lists, power) < POWERS
  {
    hide Valid, BlockRep, IndexOf, AppendAll, Pieces;
    CheckedReady(s, begin, end);
    m, heads := m0, heads0;
    HeadZero(m, heads, s, begin, end, power);
    ok := heads[power] != 0;
    var i := power + 1;
    while !ok && i < POWERS
      invariant power < i <= POWERS && |heads| == POWERS
      invariant !ok ==> forall r :: power <= r < i ==> s.lists[r] == []
      invariant !ok ==> FirstFit(s.lists, power) == FirstFit(s.lists, i)
      invariant !ok ==> m == m0 && heads == heads0
      invariant ok ==> FirstFit(s.lists, power) < POWERS && BlockRep(m, heads, Checked(s, power))
    {
      HeadZero(m, heads, s, begin, end, i);
      if heads[i] != 0 {
        m, heads := SplitSlot(m, heads, power, i, s, begin, end);
        SplitKeeps(s, power, i, begin, end);
        HeadZero(m, heads, Split(s, power, i), begin, end, power);
        ok := true;
      }
      i := i + 1;
    }
  }

  /** The lists once the head of list `p` has been taken off. */
  lemma TakenLists(m0: Memory, m: Memory, heads: seq<nat>, lists: seq<seq<nat>>, p: nat)
    requires ListsRep(m0, heads, lists) && ListsApart(lists) && p < |lists| && lists[p] != []
    requires forall x: nat :: x != lists[p][0] && x != HeadOf(lists[p][1..]) ==> SameLinks(m0, m, x)
    requires var next := HeadOf(lists[p][1..]); next != 0 ==> next in m0 && LinkOk(m, next, 0, m0[next].next)
    ensures ListsRep(m, heads[p := HeadOf(lists[p][1..])], lists[p := lists[p][1..]])
  {
    hide ListRep, ListsApart, SameLinks;
    var lo, next := lists[p][0], HeadOf(lists[p][1..]);
    FinishedTail(m0, m, heads, lists, p, lo, lo + 1, next);
    forall r | 0 <= r < |lists| && r != p ensures ListRep(m, lists[r]) {
      FinishedOther(m0, m, heads, lists, p, r, lo, lo + 1, next);
    }
  }

  /** The end of mempool_malloc: takes the first free slot of class `p`. */
  method TakeSlot(m0: Memory, heads0: seq<nat>, p: nat, ghost s: Shape, ghost begin: nat, ghost end: nat)
    returns (m: Memory, heads: seq<nat>, loc: nat)
    requires Valid(s, begin, end) && BlockRep(m0, heads0, s) && p < POWERS && s.lists[p] != []
    ensures loc == s.lists[p][0] && IndexOf(s.tiles, loc) < |s.tiles|
    ensures BlockRep(m, heads, Taken(s, p))
  {
    hide ChainRep, Tiling, Covers, Cut, Set, LocsApart, ListsApart, IndexOf, ListRep, OffBut, LocsUnique;
    ListedTile(s, p, begin, end);
    TilingApart(s.tiles, begin, end);
    CoversLength(s.lists, Set(s.tiles));
    TilingUnique(s.tiles, begin, end);
    SetPositive(s.tiles, begin, end);
    CoversApart(s.lists, Set(s.tiles));
    ghost var k := IndexOf(s.tiles, s.lists[p][0]);
    NextHead(m0, heads0, s.lists, p);
    MarkChain(m0, s.tiles, k, false);
    loc := heads0[p];
    m := m0[loc := m0[loc].(status := 0)];
    heads := heads0[p := m[loc].next];
    ghost var m1 := m;
    var next := heads[p];
    if next != 0 {
      m := m[next := m[next].(prev := 0)];
    }
    hide ListsRep;
    ChainFrame(m1, m, s.tiles[k := s.tiles[k].(free := false)], 0, 0);
    NextApart(s.lists, p);
    TakenLists(m0, m, heads0, s.lists, p);
  }

  lemma NextApart(lists: seq<seq<nat>>, p: nat)
    requires ListsApart(lists) && p < |lists| && lists[p] != []
    ensures HeadOf(lists[p][1..]) != lists[p][0]
  {
    assert lists[p][0] in lists[p];
  }
}
