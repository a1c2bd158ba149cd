/** The loops of mempool_free (src/mempool.C): finding the free neighbourhood of a
    slot, unlinking it from the free lists, and cutting it again. */
module MempoolFree {
  import opened SizeClasses
  import opened MempoolShape
  import opened MempoolLinks
  import opened MempoolBlock

  ghost predicate LocsPositive(tiles: seq<Tile>) {
    forall k :: 0 <= k < |tiles| ==> tiles[k].loc > 0
  }

  // ----- the two scans

  lemma BytesPrepend(tiles: seq<Tile>, x: nat, y: nat)
    requires x < y <= |tiles|
    ensures Bytes(tiles[x..y]) == Cut(tiles[x].power) + Bytes(tiles[x + 1..y])
  {
    assert tiles[x..y][1..] == tiles[x + 1..y];
  }

  lemma BytesSnoc(tiles: seq<Tile>, x: nat, y: nat)
    requires x <= y < |tiles|
    ensures Bytes(tiles[x..y + 1]) == Bytes(tiles[x..y]) + Cut(tiles[y].power)
  {
    assert tiles[x..y + 1] == tiles[x..y] + [tiles[y]];
    BytesConcat(tiles[x..y], [tiles[y]]);
    BytesOne(tiles[y]);
  }

  method ScanBack(m: Memory, toFree: nat, ghost tiles: seq<Tile>, ghost k: nat)
    returns (first: nat, size: nat)
    requires ChainRep(m, tiles, 0, 0) && LocsPositive(tiles)
    requires k < |tiles| && tiles[k].free && tiles[k].loc == toFree
    ensures var i := RunStart(tiles, k); first == tiles[i].loc && size == Bytes(tiles[i..k + 1])
  {
    hide ChainRep, Bytes, Cut;
    size, first := 0, toFree;
    var current := toFree;
    ghost var x: nat := k + 1;
    assert tiles[k + 1..k + 1] == [];
    assert Bytes([]) == 0 by { NoBytes(); }
    while current != 0 && current in m && m[current].status == 1
      invariant x <= k + 1 && current == LocBefore(tiles, x, 0)
      invariant RunStart(tiles, x) == RunStart(tiles, k)
      invariant size == Bytes(tiles[x..k + 1])
      invariant x <= k ==> first == tiles[x].loc
      decreases x
    {
      assert x > 0;
      x := x - 1;
      ChainHas(m, tiles, x, 0, 0);
      BytesPrepend(tiles, x, k + 1);
      size := size + m[current].size;
      first := current;
      current := m[current].gprev;
    }
    if x > 0 {
      ChainHas(m, tiles, x - 1, 0, 0);
    }
  }

  lemma NoBytes()
    ensures Bytes([]) == 0
  {
  }

  method ScanForward(m: Memory, toFree: nat, ghost tiles: seq<Tile>, ghost k: nat)
    returns (usedNext: nat, size: nat)
    requires ChainRep(m, tiles, 0, 0) && LocsPositive(tiles)
    requires k < |tiles| && tiles[k].free && tiles[k].loc == toFree
    ensures var j := RunEnd(tiles, k + 1); usedNext == FirstOr(tiles[j..], 0) && size == Bytes(tiles[k..j])
  {
    hide ChainRep, Bytes, Cut;
    size := 0;
    var current := toFree;
    ghost var y := k;
    assert tiles[k..k] == [];
    NoBytes();
    while current != 0 && current in m && m[current].status == 1
      invariant k <= y <= |tiles| && current == FirstOr(tiles[y..], 0)
      invariant RunEnd(tiles, y) == RunEnd(tiles, k + 1)
      invariant size == Bytes(tiles[k..y])
      decreases |tiles| - y
    {
      assert y < |tiles|;
      ChainHas(m, tiles, y, 0, 0);
      BytesSnoc(tiles, k, y);
      size := size + m[current].size;
      current := m[current].gnext;
      y := y + 1;
    }
    if y < |tiles| {
      ChainHas(m, tiles, y, 0, 0);
    }
    usedNext := current;
  }

  // ----- unlinking the neighbourhood

  lemma UnlinkedSame(m: Memory, x: nat, y: nat)
    requires x in m
    ensures SameTile(m, Unlinked(m, x), y)
  {
  }

  lemma SameTrans(m: Memory, m1: Memory, m2: Memory, x: nat)
    requires SameTile(m, m1, x) && SameTile(m1, m2, x)
    ensures SameTile(m, m2, x)
  {
  }

  /** The free slots of `run` from `x` on are on their lists. */
  ghost predicate Listed(lists: seq<seq<nat>>, run: seq<Tile>, x: nat) {
    forall y :: x <= y < |run| && run[y].free ==> run[y].power < |lists| && run[y].loc in lists[run[y].power]
  }

  lemma DropApart(lists: seq<seq<nat>>, t: Tile)
    requires ListsApart(lists) && t.power < |lists|
    ensures ListsApart(DropFree(lists, t))
    ensures forall p, y :: 0 <= p < |lists| ==>
                             (y in DropFree(lists, t)[p] <==> y in lists[p] && (p != t.power || y != t.loc))
  {
    WithoutHas(lists[t.power], t.loc);
  }

  lemma DropListed(lists: seq<seq<nat>>, run: seq<Tile>, x: nat)
    requires ListsApart(lists) && Listed(lists, run, x) && x < |run| && run[x].free && LocsApart(run)
    ensures run[x].power < |lists|
    ensures ListsApart(DropFree(lists, run[x])) && Listed(DropFree(lists, run[x]), run, x + 1)
  {
    DropApart(lists, run[x]);
  }

  lemma DropStep(lists: seq<seq<nat>>, run: seq<Tile>, x: nat)
    requires x < |run|
    ensures DropAll(lists, run[x..]) == DropAll(if run[x].free then DropFree(lists, run[x]) else lists, run[x + 1..])
  {
    assert run[x..][1..] == run[x + 1..];
  }

  /** A stretch of slots as the chain of headers has it while `toFree` is being
      freed: that slot is already marked free. */
  ghost function Marked(run: seq<Tile>, toFree: nat): seq<Tile> {
    seq(|run|, i requires 0 <= i < |run| => if run[i].loc == toFree then run[i].(free := true) else run[i])
  }

  method UnlinkRun(m0: Memory, heads0: seq<nat>, first: nat, usedNext: nat, toFree: nat,
                   ghost run: seq<Tile>, ghost before: nat, ghost lists0: seq<seq<nat>>)
    returns (m: Memory, heads: seq<nat>)
    requires ChainRep(m0, Marked(run, toFree), before, usedNext) && LocsApart(run) && LocsPositive(run)
    requires first == FirstOr(run, usedNext)
    requires forall k :: 0 <= k < |run| ==> run[k].loc != usedNext && (run[k].free <==> run[k].loc != toFree)
    requires ListsRep(m0, heads0, lists0) && ListsApart(lists0) && Listed(lists0, run, 0)
    ensures ListsRep(m, heads, DropAll(lists0, run)) && ListsApart(DropAll(lists0, run))
    ensures forall x :: SameTile(m0, m, x)
  {
    hide ChainRep, ListsRep, ListsApart, Listed, DropAll, DropFree, Cut, LocsApart, Unlinked, SameTile;
    m, heads := m0, heads0;
    var current := first;
    ghost var x := 0;
    ghost var lists := lists0;
    assert run[0..] == run;
    forall y ensures SameTile(m0, m, y) { SameRefl(m0, y); }
    while current != usedNext
      invariant x <= |run| && current == FirstOr(run[x..], usedNext)
      invariant ChainRep(m, Marked(run, toFree), before, usedNext)
      invariant ListsRep(m, heads, lists) && ListsApart(lists) && Listed(lists, run, x)
      invariant DropAll(lists, run[x..]) == DropAll(lists0, run)
      invariant forall y :: SameTile(m0, m, y)
      decreases |run| - x
    {
      assert x < |run|;
      ChainHas(m, Marked(run, toFree), x, before, usedNext);
      DropStep(lists, run, x);
      if current != toFree {
        ListedAt(m, heads, lists, run, x);
        DropListed(lists, run, x);
        UnlinkedRep(m, heads, lists, run[x]);
        var power := m[current].power;
        ghost var m1 := m;
        heads := heads[power := UnlinkedHead(m, heads[power], current)];
        m := Unlinked(m, current);
        forall y ensures SameTile(m1, m, y) && SameTile(m0, m, y) {
          UnlinkedSame(m1, current, y);
          SameTrans(m0, m1, m, y);
        }
        ChainFrame(m1, m, Marked(run, toFree), before, usedNext);
        lists := DropFree(lists, run[x]);
      } else {
        ListedSkip(lists, run, x);
      }
      ChainHas(m, Marked(run, toFree), x, before, usedNext);
      current := m[current].gnext;
      x := x + 1;
    }
    DropNone(lists, run, x, current, usedNext);
  }

  lemma DropNone(lists: seq<seq<nat>>, run: seq<Tile>, x: nat, current: nat, usedNext: nat)
    requires x <= |run| && current == FirstOr(run[x..], usedNext) && current == usedNext
    requires forall k :: 0 <= k < |run| ==> run[k].loc != usedNext
    ensures DropAll(lists, run[x..]) == lists
  {
  }

  lemma SameRefl(m: Memory, x: nat)
    ensures SameTile(m, m, x)
  {
  }

  lemma ListedSkip(lists: seq<seq<nat>>, run: seq<Tile>, x: nat)
    requires Listed(lists, run, x)
    ensures Listed(lists, run, x + 1)
  {
  }

  lemma ListedAt(m: Memory, heads: seq<nat>, lists: seq<seq<nat>>, run: seq<Tile>, x: nat)
    requires ListsRep(m, heads, lists) && Listed(lists, run, x) && x < |run| && run[x].free
    ensures run[x].power < |lists| == |heads| && run[x].loc in lists[run[x].power]
  {
  }

  // ----- cutting the neighbourhood again

  /** No free slot lies in [lo, hi). */
  ghost predicate Off(lists: seq<seq<nat>>, lo: nat, hi: nat) {
    forall p, x :: 0 <= p < |lists| && x in lists[p] ==> !(lo <= x < hi)
  }

  lemma PushApart(lists: seq<seq<nat>>, t: Tile, hi: nat)
    requires ListsApart(lists) && Off(lists, t.loc, hi) && t.End() <= hi && t.loc > 0
    ensures OnNoList(lists, t.loc) && ListsApart(PushFree(lists, t)) && Off(PushFree(lists, t), t.End(), hi)
  {
    assert Cut(t.power) >= 64;
    var ls := PushFree(lists, t);
    forall p, x | 0 <= p < |ls| && x in ls[p] ensures x in lists[p] || (p == t.power && x == t.loc) {
    }
  }

  lemma {:induction false} PushAllSnoc(lists: seq<seq<nat>>, done: seq<Tile>, t: Tile)
    ensures PushAll(lists, done + [t]) == PushFree(PushAll(lists, done), t)
    decreases |done|
  {
    if done == [] {
      assert [t][1..] == [];
      assert done + [t] == [t];
      assert PushAll(PushFree(lists, t), []) == PushFree(lists, t);
    } else {
      PushAllSnoc(PushFree(lists, done[0]), done[1..], t);
      assert (done + [t])[1..] == done[1..] + [t];
    }
  }

  lemma LinkedSame(m: Memory, heads: seq<nat>, p: nat, x: nat, y: nat)
    requires p < |heads| && x in m
    ensures SameTile(m, Linked(m, heads, p, x), y)
  {
  }

  /** Writing the header of the next piece and pushing it on its free list. */
  lemma RebuildStep(m: Memory, heads: seq<nat>, lists: seq<seq<nat>>, done: seq<Tile>, t: Tile, before: nat, hi: nat,
                    m1: Memory)
    requires ChainRep(m, done, before, t.loc) && forall k :: 0 <= k < |done| ==> done[k].loc < t.loc
    requires ListsRep(m, heads, lists) && ListsApart(lists) && Off(lists, t.loc, hi)
    requires t.free && t.loc > 0 && t.power < |lists| && t.End() <= hi
    requires m1 == m[t.loc := Slot(Cut(t.power), t.power, 1, LastOr(done, before), t.End(), 0, 0)]
    ensures |heads| == |lists|
    ensures var m2 := Linked(m1, heads, t.power, t.loc);
            && ChainRep(m2, done + [t], before, t.End())
            && ListsRep(m2, heads[t.power := t.loc], PushFree(lists, t))
            && (forall x :: x != t.loc ==> SameTile(m, m2, x))
    ensures ListsApart(PushFree(lists, t)) && Off(PushFree(lists, t), t.End(), hi)
  {
    hide ChainRep, ListRep, Cut, Linked, ListsApart, Off;
    PushApart(lists, t, hi);
    hide OnNoList;
    WriteOff(m, heads, lists, t.loc, m1);
    LinkedRep(m1, heads, lists, t);
    var m2 := Linked(m1, heads, t.power, t.loc);
    forall x ensures SameTile(m1, m2, x) {
      LinkedSame(m1, heads, t.power, t.loc, x);
    }
    forall x | x != t.loc ensures SameTile(m, m2, x) {
      assert SameTile(m, m1, x);
      SameTrans(m, m1, m2, x);
    }
    ChainFrame(m, m2, done, before, t.loc);
    assert TileOk(m1, t, LastOr(done, before), t.End());
    assert SameTile(m1, m2, t.loc);
    ChainSnoc(m2, done, t, before, t.End());
  }

  lemma WriteOff(m: Memory, heads: seq<nat>, lists: seq<seq<nat>>, loc: nat, m1: Memory)
    requires ListsRep(m, heads, lists) && OnNoList(lists, loc)
    requires forall x :: x != loc && x in m ==> x in m1 && m1[x] == m[x]
    ensures ListsRep(m1, heads, lists)
  {
    hide ListsRep;
    forall x | !OnNoList(lists, x) ensures SameLinks(m, m1, x) {
    }
    ListsFrame(m, m1, heads, lists);
  }

  /** Writes the header of a free slot and pushes it on the front of its list. */
  method WritePiece(m0: Memory, heads0: seq<nat>, i: nat, loc: nat, gprev: nat) returns (m: Memory, heads: seq<nat>)
    requires i < |heads0| && (heads0[i] != 0 ==> heads0[i] in m0)
    ensures m == Linked(m0[loc := Slot(Cut(i), i, 1, gprev, loc + Cut(i), 0, 0)], heads0, i, loc)
    ensures heads == heads0[i := loc]
  {
    m := m0[loc := Slot(Cut(i), i, 1, gprev, loc + Cut(i), 0, 0)];
    if heads0[i] == 0 {
      m := m[loc := m[loc].(next := 0)];
    } else {
      m := m[loc := m[loc].(next := heads0[i])];
      m := m[heads0[i] := m[heads0[i]].(prev := loc)];
    }
    heads := heads0[i := loc];
  }

  /** The headers and lists once the pieces `done` have been written. */
  ghost predicate Rebuilding(m0: Memory, m: Memory, heads: seq<nat>, lists0: seq<seq<nat>>, done: seq<Tile>,
                             before: nat, first: nat, loc: nat, hi: nat) {
    && ChainRep(m, done, before, loc) && (forall k :: 0 <= k < |done| ==> first <= done[k].loc < loc)
    && |lists0| == POWERS
    && ListsRep(m, heads, PushAll(lists0, done)) && ListsApart(PushAll(lists0, done))
    && Off(PushAll(lists0, done), loc, hi)
    && (forall x: nat :: !(first <= x < loc) ==> SameTile(m0, m, x))
    && 0 < first <= loc <= hi
    && (done == [] <==> loc == first) && (done == [] ==> m == m0)
  }

  lemma RebuildingStep(m0: Memory, m: Memory, heads: seq<nat>, lists0: seq<seq<nat>>, done: seq<Tile>,
                       before: nat, first: nat, t: Tile, hi: nat, m1: Memory)
    requires Rebuilding(m0, m, heads, lists0, done, before, first, t.loc, hi)
    requires t.free && t.power < POWERS && t.End() <= hi
    requires m1 == m[t.loc := Slot(Cut(t.power), t.power, 1, LastOr(done, before), t.End(), 0, 0)]
    ensures |heads| == POWERS
    ensures Rebuilding(m0, Linked(m1, heads, t.power, t.loc), heads[t.power := t.loc], lists0, done + [t],
                       before, first, t.End(), hi)
  {
    hide ChainRep, ListsRep, ListsApart, Off, PushAll, Linked, PushFree;
    var lists := PushAll(lists0, done);
    RebuildStep(m, heads, lists, done, t, before, hi, m1);
    PushAllSnoc(lists0, done, t);
    var m2 := Linked(m1, heads, t.power, t.loc);
    assert Cut(t.power) >= 64;
    forall x: nat | !(first <= x < t.End()) ensures SameTile(m0, m2, x) {
      SameTrans(m0, m, m2, x);
    }
  }

  lemma RebuildingHead(m0: Memory, m: Memory, heads: seq<nat>, lists0: seq<seq<nat>>, done: seq<Tile>,
                       before: nat, first: nat, loc: nat, hi: nat, i: nat)
    requires Rebuilding(m0, m, heads, lists0, done, before, first, loc, hi) && i < POWERS
    ensures |heads| == POWERS && (heads[i] != 0 ==> heads[i] in m)
  {
    hide ChainRep, ListsApart, PushAll;
    var lists := PushAll(lists0, done);
    if lists[i] != [] {
      ListHas(m, lists[i], 0);
    }
  }

  lemma RebuildingDone(m0: Memory, m: Memory, heads: seq<nat>, lists0: seq<seq<nat>>, done: seq<Tile>,
                       before: nat, first: nat, hi: nat)
    requires Rebuilding(m0, m, heads, lists0, done, before, first, hi, hi)
    ensures ChainRep(m, done, before, hi) && ListsRep(m, heads, PushAll(lists0, done))
    ensures forall x: nat :: !(first <= x < hi) ==> SameTile(m0, m, x)
  {
  }

  lemma RebuildingStart(m: Memory, heads: seq<nat>, lists: seq<seq<nat>>, before: nat, first: nat, hi: nat)
    requires ListsRep(m, heads, lists) && ListsApart(lists) && Off(lists, first, hi) && |lists| == POWERS
    requires 0 < first <= hi
    ensures Rebuilding(m, m, heads, lists, [], before, first, first, hi)
  {
  }

  method Rebuild(m0: Memory, heads0: seq<nat>, first: nat, size: nat, ghost lists0: seq<seq<nat>>)
    returns (m: Memory, heads: seq<nat>, last: nat)
    requires first in m0 && first > 0 && 64 <= size < Cut(POWERS) && size % 64 == 0
    requires ListsRep(m0, heads0, lists0) && ListsApart(lists0) && |lists0| == POWERS
    requires Off(lists0, first, first + size)
    ensures var pieces := Greedy(first, size, POWERS);
            && ChainRep(m, pieces, m0[first].gprev, first + size)
            && ListsRep(m, heads, PushAll(lists0, pieces))
            && pieces != [] && last == pieces[|pieces| - 1].loc
    ensures forall x: nat :: !(first <= x < first + size) ==> SameTile(m0, m, x)
  {
    hide Rebuilding, Greedy, Cut, ListsRep, ListsApart, Off, PushAll, ChainRep, Linked, SameTile;
    var power := TopPower(size);
    m, heads, last := m0, heads0, 0;
    var loc: nat, left: nat, i: nat := first, size, power + 1;
    ghost var done: seq<Tile> := [];
    ghost var before, pieces := m0[first].gprev, Greedy(first, size, POWERS);
    RebuildingStart(m, heads, lists0, before, first, first + size);
    GreedySkip(first, size, power + 1, POWERS);
    assert done + Greedy(first, size, power + 1) == pieces;
    while i > 0
      invariant i <= power + 1 <= POWERS && left < Cut(i) && left % 64 == 0 && loc + left == first + size
      invariant done + Greedy(loc, left, i) == pieces
      invariant Rebuilding(m0, m, heads, lists0, done, before, first, loc, first + size)
      invariant (done == [] <==> i == power + 1) && (done == [] ==> m == m0 && loc == first)
      invariant last == LastOr(done, 0)
    {
      GreedyStep(loc, left, i);
      i := i - 1;
      if left >= Cut(i) {
        CutMultiple(i);
        ghost var t := Tile(loc, i, true);
        var prev := if i != power then last else m[loc].gprev;
        RebuildingHead(m0, m, heads, lists0, done, before, first, loc, first + size, i);
        RebuildingStep(m0, m, heads, lists0, done, before, first, t, first + size,
                       m[loc := Slot(Cut(i), i, 1, prev, loc + Cut(i), 0, 0)]);
        m, heads := WritePiece(m, heads, i, loc, prev);
        assert done + ([t] + Greedy(loc + Cut(i), left - Cut(i), i)) ==
               (done + [t]) + Greedy(loc + Cut(i), left - Cut(i), i);
        last := loc;
        done := done + [t];
        ModStep(left, Cut(i));
        loc, left := loc + Cut(i), left - Cut(i);
      }
    }
    GreedyDone(loc, left);
    assert done + [] == done;
    NoneLeft(left);
    RebuildingDone(m0, m, heads, lists0, done, before, first, first + size);
  }

  lemma CutMultiple(i: nat)
    ensures Cut(i) >= 64 && Cut(i) % 64 == 0
  {
  }

  lemma NoneLeft(left: nat)
    requires left < Cut(0) && left % 64 == 0
    ensures left == 0
  {
  }

  // ----- mempool_free

  /** The stretches before and after a run of slots. */
  lemma Around(a: seq<Tile>, b: seq<Tile>, c: seq<Tile>, at: nat, end: nat)
    requires Tiling(a + b + c, at, end) && b != [] && at > 0
    ensures forall k :: 0 <= k < |a| ==> a[k].loc < b[0].loc
    ensures forall k :: 0 <= k < |c| ==> c[k].loc >= b[0].loc + Bytes(b)
    ensures c != [] ==> c[0].loc == b[0].loc + Bytes(b)
    ensures LocsApart(a) && LocsApart(b) && LocsApart(c) && LocsPositive(a) && LocsPositive(b) && LocsPositive(c)
    ensures b[0].loc > 0 && b[0].loc + Bytes(b) <= end
  {
    hide Cut;
    BytesConcat(a + b, c);
    BytesConcat(a, b);
    TilingConcat(a + b, c, at, end);
    TilingConcat(a, b, at, at + Bytes(a + b));
    TilingBytes(a, at, at + Bytes(a));
    TilingBytes(b, at + Bytes(a), at + Bytes(a + b));
    TilingBytes(c, at + Bytes(a + b), end);
    FirstLoc(b, at + Bytes(a), at + Bytes(a + b));
  }

  lemma {:induction false} BytesMark(tiles: seq<Tile>, k: nat, f: bool)
    requires k < |tiles|
    ensures Bytes(tiles[k := tiles[k].(free := f)]) == Bytes(tiles)
  {
    var ts := tiles[k := tiles[k].(free := f)];
    if k == 0 {
      assert ts[1..] == tiles[1..];
    } else {
      BytesMark(tiles[1..], k - 1, f);
      assert ts[1..] == tiles[1..][k - 1 := tiles[k].(free := f)];
    }
  }

  lemma {:induction false} RunStartMark(tiles: seq<Tile>, k: nat, x: nat, t: Tile)
    requires x <= k < |tiles|
    ensures RunStart(tiles[k := t], x) == RunStart(tiles, x)
    decreases x
  {
    if x > 0 && tiles[x - 1].free {
      RunStartMark(tiles, k, x - 1, t);
    }
  }

  lemma {:induction false} RunEndMark(tiles: seq<Tile>, k: nat, x: nat, t: Tile)
    requires k < x <= |tiles|
    ensures RunEnd(tiles[k := t], x) == RunEnd(tiles, x)
    decreases |tiles| - x
  {
    if x < |tiles| && tiles[x].free {
      RunEndMark(tiles, k, x + 1, t);
    }
  }

  /** What the two scans find, in terms of the slots before the mark. */
  lemma Scanned(tiles: seq<Tile>, k: nat)
    requires k < |tiles|
    ensures var marked := tiles[k := tiles[k].(free := true)];
            var i, j := RunStart(tiles, k), RunEnd(tiles, k + 1);
            && RunStart(marked, k) == i && RunEnd(marked, k + 1) == j && marked[i].loc == tiles[i].loc
            && Bytes(marked[i..k + 1]) + Bytes(marked[k..j]) == Bytes(tiles[i..j]) + Cut(tiles[k].power)
            && marked[j..] == tiles[j..] && marked[..i] == tiles[..i]
  {
    hide Bytes, Cut;
    var t := tiles[k].(free := true);
    var marked := tiles[k := t];
    var i, j := RunStart(tiles, k), RunEnd(tiles, k + 1);
    RunStartMark(tiles, k, k, t);
    RunEndMark(tiles, k, k + 1, t);
    BytesMark(tiles[i..j], k - i, true);
    assert marked[i..j] == tiles[i..j][k - i := t];
    assert marked[i..j] == marked[i..k + 1] + marked[k + 1..j];
    BytesConcat(marked[i..k + 1], marked[k + 1..j]);
    BytesPrepend(marked, k, j);
  }

  /** Changing a slot's status. */
  lemma MarkChain(m: Memory, tiles: seq<Tile>, k: nat, f: bool)
    requires ChainRep(m, tiles, 0, 0) && k < |tiles| && LocsApart(tiles)
    ensures tiles[k].loc in m
    ensures ChainRep(m[tiles[k].loc := m[tiles[k].loc].(status := if f then 1 else 0)],
                     tiles[k := tiles[k].(free := f)], 0, 0)
  {
    ChainHas(m, tiles, k, 0, 0);
    var m1, ts := m[tiles[k].loc := m[tiles[k].loc].(status := if f then 1 else 0)], tiles[k := tiles[k].(free := f)];
    forall x | 0 <= x < |ts| ensures TileOk(m1, ts[x], LocBefore(ts, x, 0), LocAfter(ts, x, 0)) {
      ChainHas(m, tiles, x, 0, 0);
    }
  }

  lemma MarkedRun(tiles: seq<Tile>, k: nat, i: nat, j: nat)
    requires i <= k < j <= |tiles| && LocsApart(tiles)
    ensures Marked(tiles[i..j], tiles[k].loc) == tiles[k := tiles[k].(free := true)][i..j]
  {
  }

  /** Every free slot of a run of a block is on its list. */
  lemma RunListed(s: Shape, i: nat, j: nat)
    requires i <= j <= |s.tiles| && Covers(s.lists, Set(s.tiles))
    ensures Listed(s.lists, s.tiles[i..j], 0)
  {
    assert forall x :: 0 <= x < |s.tiles| ==> s.tiles[x] in Set(s.tiles);
  }

  /** After the run is unlinked no free slot lies in it. */
  lemma RunOff(lists: seq<seq<nat>>, a: seq<Tile>, c: seq<Tile>, lo: nat, hi: nat)
    requires Covers(lists, Set(a) + Set(c))
    requires forall k :: 0 <= k < |a| ==> a[k].loc < lo
    requires forall k :: 0 <= k < |c| ==> c[k].loc >= hi
    ensures Off(lists, lo, hi) && |lists| == POWERS
  {
    forall p, x | 0 <= p < |lists| && x in lists[p] ensures !(lo <= x < hi) {
      assert Tile(x, p, true) in Set(a) + Set(c);
    }
  }

  /** Joining the pieces to their neighbours. */
  lemma Assemble(m1: Memory, m2: Memory, a: seq<Tile>, g: seq<Tile>, c: seq<Tile>,
                 lo: nat, hi: nat, was: nat, m3: Memory)
    requires ChainRep(m1, a, 0, lo) && ChainRep(m1, c, was, 0) && ChainRep(m2, g, LastOr(a, 0), hi)
    requires forall x: nat :: !(lo <= x < hi) ==> SameTile(m1, m2, x)
    requires forall k :: 0 <= k < |a| ==> a[k].loc < lo
    requires forall k :: 0 <= k < |c| ==> c[k].loc >= hi
    requires c != [] ==> c[0].loc == hi
    requires Tiling(g, lo, hi) && LocsApart(c) && g != []
    requires var last := g[|g| - 1].loc;
             && (c == [] ==> last in m2 && m3 == m2[last := m2[last].(gnext := 0)])
             && (c != [] ==> hi in m2 && m3 == m2[hi := m2[hi].(gprev := last)])
    ensures ChainRep(m3, a + g + c, 0, 0)
  {
    hide ChainRep, Tiling, LocsApart;
    TilingApart(g, lo, hi);
    FirstLoc(g, lo, hi);
    TilingWithin(g, lo, hi);
    ChainFrame(m1, m2, a, 0, lo);
    ChainFrame(m1, m2, c, was, 0);
    ChainFrame(m2, m3, a, 0, lo);
    if c == [] {
      ChainSetAfter(m2, g, LastOr(a, 0), hi, 0);
      EmptyChain(m3, LastOr(g, 0), 0);
    } else {
      ChainSetBefore(m2, c, was, 0, LastOr(g, 0));
      ChainFrame(m2, m3, g, LastOr(a, 0), hi);
    }
    ChainConcat(m3, a, g, 0, FirstOr(c, 0));
    ChainConcat(m3, a + g, c, 0, 0);
    assert LastOr(a + g, 0) == LastOr(g, 0);
  }

  lemma TilingWithin(g: seq<Tile>, lo: nat, hi: nat)
    requires Tiling(g, lo, hi)
    ensures forall k :: 0 <= k < |g| ==> lo <= g[k].loc < hi
  {
    TilingBytes(g, lo, hi);
  }

  /** The chain around a run. */
  lemma ChainAround(m: Memory, a: seq<Tile>, b: seq<Tile>, c: seq<Tile>)
    requires ChainRep(m, a + b + c, 0, 0) && b != []
    ensures ChainRep(m, a, 0, b[0].loc) && ChainRep(m, b, LastOr(a, 0), FirstOr(c, 0))
    ensures ChainRep(m, c, LastOr(b, 0), 0)
  {
    hide ChainRep;
    ChainConcat(m, a + b, c, 0, 0);
    ChainConcat(m, a, b, 0, FirstOr(c, 0));
    assert LastOr(a + b, 0) == LastOr(b, 0);
  }

  /** The headers and free lists of a block have shape `s`. */
  ghost predicate BlockRep(m: Memory, heads: seq<nat>, s: Shape) {
    ChainRep(m, s.tiles, 0, 0) && ListsRep(m, heads, s.lists)
  }

  /** `b` is the free neighbourhood of slot `k` of `tiles`, with `a` before it and
      `c` after it. */
  ghost predicate RunAt(tiles: seq<Tile>, k: nat, a: seq<Tile>, b: seq<Tile>, c: seq<Tile>) {
    && k < |tiles| && !tiles[k].free
    && var i, j := RunStart(tiles, k), RunEnd(tiles, k + 1);
    a == tiles[..i] && b == tiles[i..j] && c == tiles[j..]
  }

  lemma RunParts(tiles: seq<Tile>, k: nat, a: seq<Tile>, b: seq<Tile>, c: seq<Tile>, at: nat, end: nat)
    requires RunAt(tiles, k, a, b, c) && Tiling(tiles, at, end) && at > 0
    ensures a + b + c == tiles && b != []
    ensures LocsApart(tiles) && LocsPositive(tiles)
    ensures forall x :: 0 <= x < |b| ==> (b[x].free <==> b[x].loc != tiles[k].loc)
  {
    hide Cut, RunStart, RunEnd, Tiling;
    assert a + b + c == tiles;
    TilingApart(tiles, at, end);
    TilingPositive(tiles, at, end);
    RunMarks(tiles, k, RunStart(tiles, k), RunEnd(tiles, k + 1));
  }

  lemma RunMarks(tiles: seq<Tile>, k: nat, i: nat, j: nat)
    requires i <= k < j <= |tiles| && LocsApart(tiles) && !tiles[k].free
    requires forall x :: i <= x < j && x != k ==> tiles[x].free
    ensures forall x :: 0 <= x < |tiles[i..j]| ==> (tiles[i..j][x].free <==> tiles[i..j][x].loc != tiles[k].loc)
  {
    forall x | i <= x < j ensures tiles[x].free <==> tiles[x].loc != tiles[k].loc {
    }
  }

  lemma TilingPositive(tiles: seq<Tile>, at: nat, end: nat)
    requires Tiling(tiles, at, end) && at > 0
    ensures LocsPositive(tiles)
  {
    TilingBytes(tiles, at, end);
  }

  lemma RunSize(a: seq<Tile>, b: seq<Tile>, c: seq<Tile>, at: nat, end: nat)
    requires Tiling(a + b + c, at, end) && b != [] && at > 0 && end - at < Cut(POWERS)
    ensures 64 <= Bytes(b) < Cut(POWERS) && Bytes(b) % 64 == 0
    ensures Tiling(Greedy(b[0].loc, Bytes(b), POWERS), b[0].loc, b[0].loc + Bytes(b))
    ensures forall x :: 0 <= x < |b| ==> b[x].loc != FirstOr(c, 0)
  {
    hide Tiling, Greedy, Bytes, Cut, LocsApart;
    RunTiling(a, b, c, at, end);
    SomeBytes(b);
    GreedyTiling(b[0].loc, Bytes(b), POWERS);
    TilingConcat(a + b, c, at, end);
    TilingConcat(a, b, at, at + Bytes(a + b));
    BytesConcat(a, b);
    TilingWithin(b, b[0].loc, b[0].loc + Bytes(b));
    Around(a, b, c, at, end);
  }

  lemma SomeBytes(b: seq<Tile>)
    requires b != []
    ensures Bytes(b) >= 64
  {
    CutMultiple(b[0].power);
  }

  lemma DroppedLists(lists: seq<seq<nat>>, a: seq<Tile>, b: seq<Tile>, c: seq<Tile>, at: nat, end: nat)
    requires Tiling(a + b + c, at, end) && at > 0 && Covers(lists, Set(a + b + c))
    ensures Covers(DropAll(lists, b), Set(a) + Set(c)) && Listed(lists, b, 0) && ListsApart(lists)
  {
    hide Tiling, DropAll, Cut, LocsUnique, Bytes, Covers, ListsApart, LocsApart, Listed, Set;
    TilingUnique(a + b + c, at, end);
    Apart3(a, b, c, at, end);
    DropAllCovers(lists, Set(a + b + c), b);
    RunListed(Shape(a + b + c, lists), |a|, |a| + |b|);
    assert (a + b + c)[|a|..|a| + |b|] == b;
    SetPositive(a + b + c, at, end);
    CoversApart(lists, Set(a + b + c));
  }

  lemma SetPositive(tiles: seq<Tile>, at: nat, end: nat)
    requires Tiling(tiles, at, end) && at > 0
    ensures forall t :: t in Set(tiles) ==> t.loc > 0
  {
    TilingBytes(tiles, at, end);
  }

  /** Marks the slot free and finds its free neighbourhood. */
  method Neighbourhood(m0: Memory, heads: seq<nat>, toFree: nat, ghost s: Shape, ghost k: nat,
                       ghost a: seq<Tile>, ghost b: seq<Tile>, ghost c: seq<Tile>, ghost begin: nat, ghost end: nat)
    returns (m: Memory, first: nat, size: nat, usedNext: nat)
    requires RunAt(s.tiles, k, a, b, c) && s.tiles[k].loc == toFree && Tiling(s.tiles, begin, end) && begin > 0
    requires BlockRep(m0, heads, s)
    ensures b != [] && first == b[0].loc && size == Bytes(b) && usedNext == FirstOr(c, 0)
    ensures ChainRep(m, a, 0, first) && ChainRep(m, Marked(b, toFree), LastOr(a, 0), usedNext)
    ensures ChainRep(m, c, LastOr(b, 0), 0)
    ensures ListsRep(m, heads, s.lists)
  {
    hide ChainRep, ListsRep, Cut, Bytes, LocsApart, Tiling, RunStart, RunEnd, LocsPositive;
    RunParts(s.tiles, k, a, b, c, begin, end);
    MarkChain(m0, s.tiles, k, true);
    Scanned(s.tiles, k);
    ghost var i, j, marked := RunStart(s.tiles, k), RunEnd(s.tiles, k + 1), s.tiles[k := s.tiles[k].(free := true)];
    m := m0[toFree := m0[toFree].(status := 1)];
    ListsFrame(m0, m, heads, s.lists);
    MarkedPositive(s.tiles, k);
    var back, ahead;
    first, back := ScanBack(m, toFree, marked, k);
    usedNext, ahead := ScanForward(m, toFree, marked, k);
    ChainHas(m, marked, k, 0, 0);
    size := back - m[toFree].size + ahead;
    MarkedRun(s.tiles, k, i, j);
    MarkedSplit(marked, i, j);
    ChainAround(m, a, marked[i..j], c);
  }

  lemma MarkedSplit(tiles: seq<Tile>, i: nat, j: nat)
    requires i <= j <= |tiles|
    ensures tiles[..i] + tiles[i..j] + tiles[j..] == tiles
  {
  }

  /** Cuts the unlinked run again and joins it to its neighbours. */
  method Recut(m0: Memory, heads0: seq<nat>, first: nat, size: nat, usedNext: nat,
               ghost a: seq<Tile>, ghost c: seq<Tile>, ghost was: nat, ghost lists0: seq<seq<nat>>)
    returns (m: Memory, heads: seq<nat>)
    requires ChainRep(m0, a, 0, first) && ChainRep(m0, c, was, 0) && LocsApart(c)
    requires first in m0 && first > 0 && m0[first].gprev == LastOr(a, 0) && 64 <= size < Cut(POWERS) && size % 64 == 0
    requires usedNext == FirstOr(c, 0) && (c != [] ==> usedNext == first + size)
    requires forall k :: 0 <= k < |a| ==> a[k].loc < first
    requires forall k :: 0 <= k < |c| ==> c[k].loc >= first + size
    requires ListsRep(m0, heads0, lists0) && ListsApart(lists0) && |lists0| == POWERS
    requires Off(lists0, first, first + size)
    ensures ChainRep(m, a + Greedy(first, size, POWERS) + c, 0, 0)
    ensures ListsRep(m, heads, PushAll(lists0, Greedy(first, size, POWERS)))
  {
    hide ChainRep, ListsRep, ListsApart, Off, PushAll, Greedy, Cut, LocsApart, Tiling, SameTile;
    var last;
    m, heads, last := Rebuild(m0, heads0, first, size, lists0);
    ghost var g, m1 := Greedy(first, size, POWERS), m;
    GreedyTiling(first, size, POWERS);
    ChainHas(m, g, |g| - 1, LastOr(a, 0), first + size);
    if usedNext != 0 {
      ChainHas(m0, c, 0, was, 0);
      SameHas(m0, m1, usedNext);
      m := m[usedNext := m[usedNext].(gprev := last)];
    } else {
      m := m[last := m[last].(gnext := 0)];
    }
    Assemble(m0, m1, a, g, c, first, first + size, was, m);
    ListsFrame(m1, m, heads, PushAll(lists0, g));
  }

  /** What unlinking and cutting the run need to know about it. */
  ghost predicate RunFacts(lists: seq<seq<nat>>, a: seq<Tile>, b: seq<Tile>, c: seq<Tile>, toFree: nat) {
    && b != [] && b[0].loc > 0 && LocsApart(b) && LocsApart(c) && LocsPositive(b)
    && 64 <= Bytes(b) < Cut(POWERS) && Bytes(b) % 64 == 0
    && (forall k :: 0 <= k < |a| ==> a[k].loc < b[0].loc)
    && (forall k :: 0 <= k < |c| ==> c[k].loc >= b[0].loc + Bytes(b))
    && (c != [] ==> c[0].loc == b[0].loc + Bytes(b))
    && (forall k :: 0 <= k < |b| ==> b[k].loc != FirstOr(c, 0) && (b[k].free <==> b[k].loc != toFree))
    && Listed(lists, b, 0) && ListsApart(lists)
    && Off(DropAll(lists, b), b[0].loc, b[0].loc + Bytes(b)) && |DropAll(lists, b)| == POWERS
  }

  lemma RunHas(s: Shape, k: nat, a: seq<Tile>, b: seq<Tile>, c: seq<Tile>, begin: nat, end: nat)
    requires Valid(s, begin, end) && end - begin < Cut(POWERS) && RunAt(s.tiles, k, a, b, c)
    ensures RunFacts(s.lists, a, b, c, s.tiles[k].loc)
  {
    hide ListsApart, Listed, Off, DropAll, Cut, Bytes, LocsApart, Tiling, Covers, Set, LocsPositive, RunAt;
    RunParts(s.tiles, k, a, b, c, begin, end);
    Around(a, b, c, begin, end);
    RunSize(a, b, c, begin, end);
    DroppedLists(s.lists, a, b, c, begin, end);
    RunOff(DropAll(s.lists, b), a, c, b[0].loc, b[0].loc + Bytes(b));
  }

  /** Unlinks the run and cuts it again. */
  method Coalesce(m0: Memory, heads0: seq<nat>, first: nat, size: nat, usedNext: nat, toFree: nat,
                  ghost a: seq<Tile>, ghost b: seq<Tile>, ghost c: seq<Tile>, ghost lists: seq<seq<nat>>)
    returns (m: Memory, heads: seq<nat>)
    requires RunFacts(lists, a, b, c, toFree)
    requires first == b[0].loc && size == Bytes(b) && usedNext == FirstOr(c, 0)
    requires ChainRep(m0, a, 0, first) && ChainRep(m0, Marked(b, toFree), LastOr(a, 0), usedNext)
    requires ChainRep(m0, c, LastOr(b, 0), 0)
    requires ListsRep(m0, heads0, lists)
    ensures ChainRep(m, a + Greedy(first, size, POWERS) + c, 0, 0)
    ensures ListsRep(m, heads, PushAll(DropAll(lists, b), Greedy(first, size, POWERS)))
  {
    hide ChainRep, ListsRep, ListsApart, Listed, Off, DropAll, PushAll, Greedy, Cut, Bytes;
    hide LocsApart, SameTile, Marked, LocsPositive;
    m, heads := UnlinkRun(m0, heads0, first, usedNext, toFree, b, LastOr(a, 0), lists);
    ChainFrame(m0, m, a, 0, first);
    ChainFrame(m0, m, c, LastOr(b, 0), 0);
    FirstStill(m0, m, b, toFree, LastOr(a, 0), usedNext);
    m, heads := Recut(m, heads, first, size, usedNext, a, c, LastOr(b, 0), DropAll(lists, b));
  }

  /** mempool_free: the headers and lists end up in the shape that `Freed` says. */
  method FreeSlot(m0: Memory, heads0: seq<nat>, toFree: nat,
                  ghost s: Shape, ghost k: nat, ghost begin: nat, ghost end: nat)
    returns (m: Memory, heads: seq<nat>)
    requires Valid(s, begin, end) && end - begin < Cut(POWERS) && BlockRep(m0, heads0, s)
    requires k < |s.tiles| && s.tiles[k].loc == toFree && !s.tiles[k].free
    ensures BlockRep(m, heads, Freed(s, k))
  {
    hide RunFacts, ChainRep, ListsRep, DropAll, PushAll, Greedy, Cut, Bytes, Tiling, Covers;
    hide Set, RunStart, RunEnd, Marked;
    ghost var i, j := RunStart(s.tiles, k), RunEnd(s.tiles, k + 1);
    ghost var a, b, c := s.tiles[..i], s.tiles[i..j], s.tiles[j..];
    RunHas(s, k, a, b, c, begin, end);
    var first, size, usedNext;
    m, first, size, usedNext := Neighbourhood(m0, heads0, toFree, s, k, a, b, c, begin, end);
    m, heads := Coalesce(m, heads0, first, size, usedNext, toFree, a, b, c, s.lists);
  }

  lemma FirstStill(m: Memory, m': Memory, b: seq<Tile>, toFree: nat, before: nat, after: nat)
    requires b != [] && ChainRep(m, Marked(b, toFree), before, after) && SameTile(m, m', b[0].loc)
    ensures b[0].loc in m' && m'[b[0].loc].gprev == before
  {
    ChainHas(m, Marked(b, toFree), 0, before, after);
  }

  lemma SameHas(m: Memory, m': Memory, x: nat)
    requires SameTile(m, m', x) && x in m
    ensures x in m'
  {
  }

  lemma MarkedPositive(tiles: seq<Tile>, k: nat)
    requires LocsPositive(tiles) && k < |tiles|
    ensures LocsPositive(tiles[k := tiles[k].(free := true)])
  {
  }
}
