/** The mempool: blocks that are filled, split and coalesced in place, and the pool
    that searches them and grows (src/mempool.C, small slots). */
module Mempool {
  import opened SizeClasses
  import opened MempoolShape
  import opened MempoolLinks
  import opened MempoolBlock
  import opened MempoolFree
  import opened MempoolSplit

  // ----- live allocations

  /** The slots in use: the live allocations of a block. */
  ghost function Used(tiles: seq<Tile>): set<Tile> {
    set t | t in tiles && !t.free
  }

  lemma UsedConcat(a: seq<Tile>, b: seq<Tile>)
    ensures Used(a + b) == Used(a) + Used(b)
  {
  }

  lemma UsedFree(g: seq<Tile>)
    requires forall t :: t in g ==> t.free
    ensures Used(g) == {}
  {
  }

  /** Splitting a free slot touches no allocation. */
  lemma SplitUsed(s: Shape, p: nat, q: nat, begin: nat, end: nat)
    requires Valid(s, begin, end) && p < q < POWERS && s.lists[q] != []
    requires IndexOf(s.tiles, s.lists[q][0]) < |s.tiles|
    ensures Used(Split(s, p, q).tiles) == Used(s.tiles)
  {
    hide Used, Tiling, Covers, Cut, Pieces, AppendAll, IndexOf;
    ListedTile(s, q, begin, end);
    CoversLength(s.lists, Set(s.tiles));
    var k := IndexOf(s.tiles, s.lists[q][0]);
    var a, t, c, g := s.tiles[..k], s.tiles[k], s.tiles[k + 1..], Pieces(s.lists[q][0], p, q);
    assert s.tiles == a + [t] + c;
    PiecesTiling(s.lists[q][0], p, q);
    UsedFree(g);
    UsedFree([t]);
    UsedConcat(a + [t], c);
    UsedConcat(a, [t]);
    UsedConcat(a + g, c);
    UsedConcat(a, g);
  }

  /** Taking a slot adds one allocation, at a place no other has. */
  lemma TakenUsed(s: Shape, p: nat, begin: nat, end: nat)
    requires Valid(s, begin, end) && p < POWERS && s.lists[p] != []
    requires IndexOf(s.tiles, s.lists[p][0]) < |s.tiles|
    ensures Used(Taken(s, p).tiles) == Used(s.tiles) + {Tile(s.lists[p][0], p, false)}
    ensures forall t :: t in Used(s.tiles) ==> t.loc != s.lists[p][0]
  {
    hide Tiling, Covers, Cut, IndexOf;
    ListedTile(s, p, begin, end);
    CoversLength(s.lists, Set(s.tiles));
    var k := IndexOf(s.tiles, s.lists[p][0]);
    MarkSet(s.tiles, k, begin, end);
    TilingUnique(s.tiles, begin, end);
    var ts := s.tiles[k := s.tiles[k].(free := false)];
    assert forall t :: t in ts <==> t in Set(ts);
    assert forall t :: t in s.tiles <==> t in Set(s.tiles);
    assert s.tiles[k] in Set(s.tiles);
  }

  /** Freeing a slot removes that allocation and no other. */
  lemma FreedUsed(s: Shape, k: nat, begin: nat, end: nat)
    requires Valid(s, begin, end) && k < |s.tiles| && !s.tiles[k].free
    ensures Used(Freed(s, k).tiles) == Used(s.tiles) - {s.tiles[k]}
  {
    hide Used, Tiling, Covers, Cut, RunStart, RunEnd, Greedy, PushAll, DropAll, Bytes, Set, LocsApart;
    var i, j := RunStart(s.tiles, k), RunEnd(s.tiles, k + 1);
    var a, b, c := s.tiles[..i], s.tiles[i..j], s.tiles[j..];
    var g := Greedy(b[0].loc, Bytes(b), POWERS);
    assert s.tiles == a + b + c;
    GreedyFree(b[0].loc, Bytes(b), POWERS);
    RunUsed(s.tiles, k, i, j);
    Apart3(a, b, c, begin, end);
    UsedReplace(a, b, c, g, s.tiles[k]);
  }

  lemma UsedReplace(a: seq<Tile>, b: seq<Tile>, c: seq<Tile>, g: seq<Tile>, t: Tile)
    requires Used(b) == {t} && t in b && forall u :: u in g ==> u.free
    requires forall t, u :: t in b && u in Set(a) + Set(c) ==> u.loc != t.loc
    ensures Used(a + g + c) == Used(a + b + c) - {t}
  {
    UsedOutside(a, b, c, t);
    hide Used;
    UsedFree(g);
    UsedConcat(a + b, c);
    UsedConcat(a, b);
    UsedConcat(a + g, c);
    UsedConcat(a, g);
  }

  lemma RunUsed(tiles: seq<Tile>, k: nat, i: nat, j: nat)
    requires i <= k < j <= |tiles| && !tiles[k].free
    requires forall x :: i <= x < j && x != k ==> tiles[x].free
    ensures Used(tiles[i..j]) == {tiles[k]} && tiles[k] in tiles[i..j]
  {
    assert tiles[i..j][k - i] == tiles[k];
  }

  lemma UsedOutside(a: seq<Tile>, b: seq<Tile>, c: seq<Tile>, t: Tile)
    requires t in b && forall t, u :: t in b && u in Set(a) + Set(c) ==> u.loc != t.loc
    ensures t !in Used(a) && t !in Used(c)
  {
    assert t in a ==> t in Set(a);
    assert t in c ==> t in Set(c);
  }

  lemma FilledUsed(begin: nat, size: nat)
    ensures Used(Filled(begin, size).tiles) == {}
  {
    GreedyFree(begin, size, POWERS);
    UsedFree(Filled(begin, size).tiles);
  }

  /** A block just obtained for a request of class `p` has a slot for it. */
  lemma FilledHas(begin: nat, size: nat, p: nat)
    requires 0 < begin && p < POWERS && Cut(p) <= size < Cut(POWERS)
    ensures exists t :: t in Filled(begin, size).tiles && t.free && t.power >= p
  {
    hide Filled, Cut;
    FilledFits(begin, size, p);
    FilledValid(begin, size);
    FitsIff(Filled(begin, size), p, begin, begin + (size - size % 64));
  }

  // ----- fillblock

  lemma {:induction false} PushAllSingles(lists: seq<seq<nat>>, g: seq<Tile>, n: nat)
    requires Descending(g, n) && n <= |lists|
    ensures forall k :: 0 <= k < |g| ==> PushAll(lists, g)[g[k].power] == [g[k].loc] + lists[g[k].power]
    ensures forall p :: 0 <= p < |lists| && (forall k :: 0 <= k < |g| ==> g[k].power != p) ==>
                          PushAll(lists, g)[p] == lists[p]
    decreases |g|
  {
    if g != [] {
      var ls := PushFree(lists, g[0]);
      assert forall k :: 0 <= k < |g[1..]| ==> g[1..][k] == g[k + 1];
      PushAllSingles(ls, g[1..], n);
      var all := PushAll(ls, g[1..]);
      forall k | 0 <= k < |g| ensures all[g[k].power] == [g[k].loc] + lists[g[k].power] {
        if k > 0 {
          assert g[k] == g[1..][k - 1];
        }
      }
    }
  }

  /** The heads fillblock wrote are those of its free lists. */
  lemma FilledLists(m: Memory, heads: seq<nat>, g: seq<Tile>)
    requires HeadsOf(heads, g) && Descending(g, POWERS)
    requires forall k :: 0 <= k < |g| ==> LinkOk(m, g[k].loc, 0, 0)
    ensures ListsRep(m, heads, PushAll(NoLists(POWERS), g))
  {
    hide PushAll, ListRep;
    var none := NoLists(POWERS);
    var ls := PushAll(none, g);
    PushAllSingles(none, g, POWERS);
    forall p | 0 <= p < POWERS ensures heads[p] == HeadOf(ls[p]) && ListRep(m, ls[p]) {
      if heads[p] != 0 {
        var t := Tile(heads[p], p, true);
        assert t in g;
        var k :| 0 <= k < |g| && g[k] == t;
        assert ls[p] == [g[k].loc];
        OneRep(m, g[k].loc);
      } else {
        assert forall k :: 0 <= k < |g| ==> g[k] in g && g[k].power != p;
        NoneRep(m);
      }
    }
  }

  lemma NoneRep(m: Memory)
    ensures ListRep(m, [])
  {
  }

  method FillBlock(begin: nat, left: nat) returns (m: Memory, heads: seq<nat>)
    requires 0 < begin && 64 <= left < Cut(POWERS)
    ensures BlockRep(m, heads, Filled(begin, left))
  {
    hide HeadsOf, Descending, ChainRep, Greedy, Cut, LocsApart, Tiling, PushAll;
    var power := TopPower(left);
    heads := FillHeads(begin, left, power);
    ghost var g := Greedy(begin, left, POWERS);
    GreedyPowers(begin, left, POWERS);
    GreedyPowers(begin, left, power + 1);
    GreedySkip(begin, left, power + 1, POWERS);
    GreedyTiling(begin, left, POWERS);
    TilingApart(g, begin, begin + (left - left % 64));
    GreedyTop(begin, left, power + 1, power);
    TopIs(g, power);
    m := FillChain(map[], power, heads, g);
    FilledLists(m, heads, g);
  }

  lemma TopIs(g: seq<Tile>, power: nat)
    requires Descending(g, power + 1) && g != [] && g[0].power >= power
    ensures g[0].power == power
  {
  }

  // ----- a block

  /** What checkblock leaves, for any class. */
  lemma CheckedKeeps(s: Shape, p: nat, begin: nat, end: nat)
    requires MempoolShape.Valid(s, begin, end) && p < POWERS
    ensures |s.lists| == POWERS
    ensures forall q :: 0 <= q < POWERS && s.lists[q] != [] ==> IndexOf(s.tiles, s.lists[q][0]) < |s.tiles|
    ensures MempoolShape.Valid(Checked(s, p), begin, end) && Used(Checked(s, p).tiles) == Used(s.tiles)
    ensures FirstFit(s.lists, p) < POWERS ==> |Checked(s, p).lists| == POWERS && Checked(s, p).lists[p] != []
    ensures FirstFit(s.lists, p) == POWERS ==> Checked(s, p) == s
  {
    hide Tiling, Covers, Used, IndexOf, AppendAll, Ladder, Cut;
    CheckedReady(s, begin, end);
    var q := FirstFit(s.lists, p);
    if p < q < POWERS {
      SplitKeeps(s, p, q, begin, end);
      SplitUsed(s, p, q, begin, end);
      AppendPieces(s.lists[q := s.lists[q][1..]], s.lists[q][0], p, q);
    }
  }

  class Block {
    const begin: nat
    const size: nat
    var slots: Memory
    var heads: seq<nat>
    ghost var shape: Shape

    /** Where the slots of the block end. */
    ghost function End(): nat { begin + (size - size % 64) }

    ghost predicate Valid() reads this {
      && 64 <= size < Cut(POWERS)
      && MempoolShape.Valid(shape, begin, End())
      && BlockRep(slots, heads, shape)
    }

    constructor (begin: nat, size: nat)
      requires 0 < begin && 64 <= size < Cut(POWERS)
      ensures Valid() && this.begin == begin && this.size == size && shape == Filled(begin, size)
    {
      this.begin, this.size := begin, size;
      hide MempoolShape.Valid, BlockRep, Filled, Cut;
      var m, hs := FillBlock(begin, size);
      this.slots, this.heads := m, hs;
      this.shape := Filled(begin, size);
      new;
      FilledValid(begin, size);
    }

    /** checkblock: true exactly when some free slot is large enough, and then one
        of class `power` is free. */
    method Check(power: nat) returns (ok: bool)
      requires Valid() && power < POWERS
      modifies this
      ensures Valid() && Used(shape.tiles) == old(Used(shape.tiles))
      ensures ok <==> exists t :: t in old(shape.tiles) && t.free && t.power >= power
      ensures ok ==> |shape.lists| == POWERS && shape.lists[power] != []
      ensures !ok ==> shape == old(shape)
    {
      hide MempoolShape.Valid, BlockRep, Used, Checked, FirstFit, Cut, IndexOf;
      FitsIff(shape, power, begin, End());
      CheckedKeeps(shape, power, begin, End());
      slots, heads, ok := CheckBlock(slots, heads, power, shape, begin, End());
      shape := Checked(shape, power);
    }

    /** Takes the first free slot of class `power`. */
    method Take(power: nat) returns (loc: nat)
      requires Valid() && power < POWERS && |shape.lists| == POWERS && shape.lists[power] != []
      modifies this
      ensures Valid() && (forall t :: t in old(Used(shape.tiles)) ==> t.loc != loc)
      ensures Used(shape.tiles) == old(Used(shape.tiles)) + {Tile(loc, power, false)}
    {
      hide MempoolShape.Valid, BlockRep, Used, Taken, Cut, IndexOf;
      TakenKeeps(shape, power, begin, End());
      TakenUsed(shape, power, begin, End());
      slots, heads, loc := TakeSlot(slots, heads, power, shape, begin, End());
      shape := Taken(shape, power);
    }

    /** mempool_free of the slot in use at `loc`. */
    method Release(loc: nat, ghost t: Tile)
      requires Valid() && t in Used(shape.tiles) && t.loc == loc
      modifies this
      ensures Valid() && Used(shape.tiles) == old(Used(shape.tiles)) - {t}
      ensures Used(shape.tiles) == {} ==> shape == Filled(begin, size)
      ensures exists u :: u in shape.tiles && u.free && u.power >= t.power
    {
      hide MempoolShape.Valid, BlockRep, Freed, Filled, Cut, IndexOf;
      ghost var k :| 0 <= k < |shape.tiles| && shape.tiles[k] == t;
      FreedKeeps(shape, k, begin, End());
      FreedUsed(shape, k, begin, End());
      LastUsed(shape, k, begin, size);
      FreedAgain(shape, k, begin, End());
      slots, heads := FreeSlot(slots, heads, loc, shape, k, begin, End());
      shape := Freed(shape, k);
    }

    /** The caller of an allocation owns the bytes from its 48-byte header on; they
        overlap the two free-list words of the slot. */
    method Scribble(loc: nat, prev: nat, next: nat)
      requires Valid() && exists t :: t in Used(shape.tiles) && t.loc == loc
      modifies this`slots
      ensures Valid()
    {
      hide ChainRep, ListsRep, MempoolShape.Valid, Cut;
      ghost var s := slots;
      InUse(slots, heads, shape, loc, begin, End());
      slots := slots[loc := slots[loc].(prev := prev, next := next)];
      ChainFrame(s, slots, shape.tiles, 0, 0);
      ListsFrame(s, slots, heads, shape.lists);
    }
  }

  /** A slot in use has a header and is on no free list. */
  lemma InUse(m: Memory, heads: seq<nat>, s: Shape, loc: nat, begin: nat, end: nat)
    requires MempoolShape.Valid(s, begin, end) && BlockRep(m, heads, s)
    requires exists t :: t in Used(s.tiles) && t.loc == loc
    ensures loc in m && OnNoList(s.lists, loc)
  {
    hide ChainRep, ListsRep, Tiling, Cut;
    var t :| t in Used(s.tiles) && t.loc == loc;
    var k :| 0 <= k < |s.tiles| && s.tiles[k] == t;
    ChainHas(m, s.tiles, k, 0, 0);
    TilingUnique(s.tiles, begin, end);
    forall p: nat | p < |s.lists| ensures loc !in s.lists[p] {
      assert t in Set(s.tiles);
      assert loc in s.lists[p] ==> Tile(loc, p, true) in Set(s.tiles);
    }
  }

  /** Freeing the last allocation of a block restores it as fillblock built it. */
  lemma LastUsed(s: Shape, k: nat, begin: nat, size: nat)
    requires size < Cut(POWERS) && MempoolShape.Valid(s, begin, begin + (size - size % 64)) && k < |s.tiles|
    ensures Used(s.tiles) - {s.tiles[k]} == {} ==> Freed(s, k) == Filled(begin, size)
  {
    hide Freed, Filled, Covers, Cut;
    if Used(s.tiles) - {s.tiles[k]} == {} {
      TilingApart(s.tiles, begin, begin + (size - size % 64));
      hide Tiling;
      forall x | 0 <= x < |s.tiles| && x != k ensures s.tiles[x].free {
        assert s.tiles[x] in s.tiles && s.tiles[x].loc != s.tiles[k].loc;
        assert s.tiles[x] !in Used(s.tiles) - {s.tiles[k]};
      }
      RoundTrip(s, k, begin, size);
    }
  }

  // ----- the pool

  const USED_HEADER: nat := 48
  const BLOCK_HEADER: nat := 240

  /** newblockfn's answer: nothing, or a block of memory. */
  datatype Grant = Nothing | Memory(base: nat, bytes: nat)

  /** What mempool_malloc does: it returns a pointer or null, hands the request to
      mempool_large_malloc, or stops the program. */
  datatype Outcome = Got(ptr: nat) | NoMemory | Large | Stopped

  ghost predicate Apart(b: Block, c: Block) {
    b.End() <= c.begin || c.End() <= b.begin
  }

  class Pool {
    var blocks: seq<Block>

    ghost predicate Valid() reads this, blocks {
      && (forall i, j :: 0 <= i < j < |blocks| ==> blocks[i] != blocks[j] && Apart(blocks[i], blocks[j]))
      && (forall b :: b in blocks ==> b.Valid())
    }

    /** All live allocations. */
    ghost function Live(): set<Tile> reads this, blocks {
      set b, t | b in blocks && t in Used(b.shape.tiles) :: t
    }

    /** No block has a free slot of class `power` or above. */
    ghost predicate Full(power: nat) reads this, blocks {
      forall b, t :: b in blocks && t in b.shape.tiles && t.free ==> t.power < power
    }

    constructor (begin: nat, size: nat)
      requires 0 < begin && 64 <= size < Cut(POWERS)
      ensures Valid() && fresh(blocks) && Live() == {}
    {
      hide Block.Valid, Used, Filled, Cut;
      var b := new Block(begin, size);
      blocks := [b];
      new;
      FilledUsed(begin, size);
    }

    /** The walk over the blocks: the first that can serve the request. */
    method Search(power: nat) returns (i: nat)
      requires Valid() && power < POWERS
      modifies blocks
      ensures Valid() && Live() == old(Live())
      ensures i <= |blocks|
      ensures i < |blocks| ==> |blocks[i].shape.lists| == POWERS && blocks[i].shape.lists[power] != []
      ensures i == |blocks| <==> old(Full(power))
    {
      hide Block.Valid, Used, Apart;
      i := 0;
      while i < |blocks|
        invariant i <= |blocks| && Valid()
        invariant forall b :: b in blocks ==> b.shape == old(b.shape)
        invariant forall k, t :: 0 <= k < i && t in old(blocks[k].shape.tiles) && t.free ==> t.power < power
      {
        var ok := blocks[i].Check(power);
        if ok {
          break;
        }
        i := i + 1;
      }
    }

    /** Appends the block that newblockfn handed back; it can serve the request. */
    method Grow(power: nat, grant: Grant) returns (i: nat)
      requires Valid() && power < POWERS && grant.Memory?
      requires Cut(power) <= grant.bytes - BLOCK_HEADER < Cut(POWERS)
      requires forall b :: b in blocks ==> grant.base + grant.bytes <= b.begin || b.End() <= grant.base
      modifies this
      ensures Valid() && i < |blocks| && Live() == old(Live())
      ensures |blocks[i].shape.lists| == POWERS && blocks[i].shape.lists[power] != []
      ensures |blocks| == |old(blocks)| + 1 && blocks[..|old(blocks)|] == old(blocks) && fresh(blocks[|old(blocks)|])
    {
      hide Block.Valid, Used, Filled, Cut;
      CutMultiple(power);
      var left: nat := grant.bytes - BLOCK_HEADER;
      var b := new Block(grant.base + BLOCK_HEADER, left);
      FilledUsed(grant.base + BLOCK_HEADER, left);
      FilledHas(grant.base + BLOCK_HEADER, left, power);
      var ok := b.Check(power);
      if !ok {
        assert false;
      }
      i := |blocks|;
      blocks := blocks + [b];
      assert forall c :: c in blocks ==> c == b || c in old(blocks);
    }

    /** Takes a slot from block `i`. */
    method TakeFrom(i: nat, power: nat) returns (loc: nat)
      requires Valid() && i < |blocks| && power < POWERS
      requires |blocks[i].shape.lists| == POWERS && blocks[i].shape.lists[power] != []
      modifies blocks
      ensures Valid() && Tile(loc, power, false) !in old(Live())
      ensures Live() == old(Live()) + {Tile(loc, power, false)}
    {
      hide Used, Cut, Block.Valid;
      ghost var b := blocks[i];
      forall c, u | c in blocks && u in Used(c.shape.tiles) ensures c.begin <= u.loc < c.End() {
        Inside(c, u);
      }
      loc := blocks[i].Take(power);
      ghost var t := Tile(loc, power, false);
      assert b.begin <= t.loc < b.End() by { Inside(b, t); }
      assert forall c :: c in blocks && c != b ==> Apart(b, c) || Apart(c, b);
      assert forall c :: c in blocks ==> t !in old(Used(c.shape.tiles));
    }

    /** mempool_malloc for a slot of class `power`. A null result means that no block
        has a free slot large enough and the pool may not or cannot grow; the program
        stops only when newblockfn hands back a gigabyte or more, so never for want
        of a slot. */
    method Serve(power: nat, expand: bool, grant: Grant) returns (r: Outcome)
      requires Valid() && power < POWERS
      requires grant.Memory? ==> grant.bytes >= Cut(power) + BLOCK_HEADER
      requires grant.Memory? ==>
                 forall b :: b in blocks ==> grant.base + grant.bytes <= b.begin || b.End() <= grant.base
      modifies this, blocks
      ensures Valid() && fresh(set b | b in blocks && b !in old(blocks))
      ensures r.Got? ==>
                && r.ptr >= USED_HEADER
                && var t := Tile(r.ptr - USED_HEADER, power, false);
                && t !in old(Live()) && Live() == old(Live()) + {t}
      ensures !r.Got? ==> Live() == old(Live()) && blocks == old(blocks)
      ensures !r.Large?
      ensures r.Stopped? <==> old(Full(power)) && expand && grant.Memory? && grant.bytes - BLOCK_HEADER >= Cut(POWERS)
      ensures r.NoMemory? <==> old(Full(power)) && (!expand || grant.Nothing?)
      ensures |blocks| >= |old(blocks)| && blocks[..|old(blocks)|] == old(blocks)
      ensures |blocks| == |old(blocks)| + if r.Got? && old(Full(power)) then 1 else 0
    {
      hide Block.Valid, Used, Cut, Filled, Live, Full, Apart;
      var i := Search(power);
      if i == |blocks| {
        if !expand || grant.Nothing? {
          return NoMemory;
        }
        if grant.bytes - BLOCK_HEADER >= Cut(POWERS) {
          return Stopped;
        }
        i := Grow(power, grant);
      }
      var loc := TakeFrom(i, power);
      r := Got(loc + USED_HEADER);
    }

    /** mempool_malloc: on success one more live allocation, disjoint from the others
        by `LiveApart`, with room for `size` bytes behind its header. */
    method Malloc(size: nat, expand: bool, grant: Grant) returns (r: Outcome)
      requires Valid()
      requires grant.Memory? ==> grant.bytes >= Cut(ClassOf(size + USED_HEADER)) + BLOCK_HEADER
      requires grant.Memory? ==>
                 forall b :: b in blocks ==> grant.base + grant.bytes <= b.begin || b.End() <= grant.base
      modifies this, blocks
      ensures Valid() && fresh(set b | b in blocks && b !in old(blocks))
      ensures r.Got? ==>
                && r.ptr >= USED_HEADER
                && var t := Tile(r.ptr - USED_HEADER, ClassOf(size + USED_HEADER), false);
                && t !in old(Live()) && Live() == old(Live()) + {t}
                && r.ptr + size <= t.End()
      ensures !r.Got? ==> Live() == old(Live()) && blocks == old(blocks)
      ensures r.Large? <==> ClassOf(size + USED_HEADER) >= POWERS
      ensures r.Stopped? <==> ClassOf(size + USED_HEADER) < POWERS && old(Full(ClassOf(size + USED_HEADER))) && expand
                              && grant.Memory? && grant.bytes - BLOCK_HEADER >= Cut(POWERS)
      ensures r.NoMemory? <==> ClassOf(size + USED_HEADER) < POWERS && old(Full(ClassOf(size + USED_HEADER)))
                               && (!expand || grant.Nothing?)
      ensures |blocks| >= |old(blocks)| && blocks[..|old(blocks)|] == old(blocks)
      ensures |blocks| == |old(blocks)| + if r.Got? && old(Full(ClassOf(size + USED_HEADER))) then 1 else 0
    {
      hide Block.Valid, Used, Cut, Filled, Live, Full, Apart;
      var power := WhichPow2(size + USED_HEADER);
      if power >= POWERS {
        return Large;
      }
      r := Serve(power, expand, grant);
    }

    /** mempool_free of a live allocation; `b` is the block its header names. */
    method Free(b: Block, ptr: nat, ghost t: Tile)
      requires Valid() && b in blocks && t in Used(b.shape.tiles) && ptr == t.loc + USED_HEADER
      modifies blocks
      ensures Valid() && Live() == old(Live()) - {t}
      ensures forall b :: b in blocks && Used(b.shape.tiles) == {} && old(Used(b.shape.tiles)) != {} ==>
                            b.shape == Filled(b.begin, b.size)
      ensures !Full(t.power)
    {
      hide Used, Cut, Block.Valid, Filled;
      forall c, u | c in blocks && u in Used(c.shape.tiles) ensures c.begin <= u.loc < c.End() {
        Inside(c, u);
      }
      assert forall c :: c in blocks && c != b ==> Apart(b, c) || Apart(c, b);
      assert forall c :: c in blocks && c != b ==> t !in Used(c.shape.tiles);
      b.Release(ptr - USED_HEADER, t);
      forall u | u in old(Live()) && u != t ensures u in Live() {
        var c :| c in blocks && u in old(Used(c.shape.tiles));
        assert u in Used(c.shape.tiles);
      }
      forall u | u in Live() ensures u in old(Live()) && u != t {
        var c :| c in blocks && u in Used(c.shape.tiles);
        assert u in old(Used(c.shape.tiles));
      }
    }

    /** Live allocations never overlap. */
    lemma LiveApart(t: Tile, u: Tile)
      requires Valid() && t in Live() && u in Live() && t != u
      ensures t.End() <= u.loc || u.End() <= t.loc
    {
      hide Block.Valid, Used, Cut;
      var b :| b in blocks && t in Used(b.shape.tiles);
      var c :| c in blocks && u in Used(c.shape.tiles);
      Inside(b, t);
      Inside(c, u);
      if b == c {
        SameBlock(b, t, u);
      } else {
        assert Apart(b, c) || Apart(c, b);
      }
    }
  }

  lemma SameBlock(b: Block, t: Tile, u: Tile)
    requires b.Valid() && t in Used(b.shape.tiles) && u in Used(b.shape.tiles) && t != u
    ensures t.End() <= u.loc || u.End() <= t.loc
  {
    hide Tiling, Cut, Covers, BlockRep;
    var ts := b.shape.tiles;
    TilingBytes(ts, b.begin, b.End());
    var j :| 0 <= j < |ts| && ts[j] == t;
    var k :| 0 <= k < |ts| && ts[k] == u;
    assert j < k || k < j;
  }

  /** The shape of a block with no allocations determines every word of its slot
      headers and its list heads; so coming back to the shape of fillblock means
      coming back to the memory that fillblock wrote. */
  lemma ShapeIsMemory(m: Memory, heads: seq<nat>, m': Memory, heads': seq<nat>, s: Shape, begin: nat, end: nat, k: nat)
    requires MempoolShape.Valid(s, begin, end) && BlockRep(m, heads, s) && BlockRep(m', heads', s)
    requires k < |s.tiles| && s.tiles[k].free
    ensures heads == heads' && s.tiles[k].loc in m && s.tiles[k].loc in m' && m[s.tiles[k].loc] == m'[s.tiles[k].loc]
  {
    hide Tiling, ChainRep, Cut;
    var t := s.tiles[k];
    ChainHas(m, s.tiles, k, 0, 0);
    ChainHas(m', s.tiles, k, 0, 0);
    assert t in Set(s.tiles);
    var l := s.lists[t.power];
    var j :| 0 <= j < |l| && l[j] == t.loc;
    ListHas(m, l, j);
    ListHas(m', l, j);
  }

  lemma Inside(b: Block, t: Tile)
    requires b.Valid() && t in Used(b.shape.tiles)
    ensures b.begin <= t.loc < b.End() && t.End() <= b.End()
  {
    TilingBytes(b.shape.tiles, b.begin, b.End());
    CutMultiple(t.power);
  }
}
