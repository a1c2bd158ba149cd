/** Every atomic access of the pool is one step, or no step, of the abstract pool. */
module IpcRefinement {
  import opened SizeClasses
  import opened IpcPlaces
  import opened IpcAbstract
  import opened IpcPool

  lemma StartRefines(limit: nat)
    requires BEGIN <= limit < END
    ensures Refines(Start(limit), EMPTY) && EMPTY.Inv()
  {
    var m := Start(limit).mem;
    forall i, b ensures CacheOk(m, EMPTY.view, i, b) {
    }
    forall r ensures EMPTY.RqFifo(r) && EMPTY.NodeFifo(r) {
    }
    forall p ensures EMPTY.view.Listed(p) {
    }
  }

  // ----- what one step owes to the PEs that do not take it

  ghost predicate SameLinks(m: Mem, m': Mem, s: seq<nat>) {
    forall k :: 0 <= k < |s| && s[k] in m.blocks ==> s[k] in m'.blocks && m'.blocks[s[k]].next == m.blocks[s[k]].next
  }

  /** Everything PE `h` relies on is the same after the step. */
  ghost predicate Untouched(m: Mem, v: View, m': Mem, w: View, h: Agent) {
    && (m.heap != NIL ==> m'.heap != NIL)
    && (h.Sender? ==> forall b :: m'.Cache(h.host, b) == m.Cache(h.host, b))
    && (forall o :: o in v.place && v.place[o] == Hand(h) ==>
                    o in w.place && w.place[o] == Hand(h) && m'.Blk(o) == m.Blk(o))
    && (h.Receiver? ==>
          && w.At(WalkRq(h.rank)) == v.At(WalkRq(h.rank)) && w.At(WalkNode(h.rank)) == v.At(WalkNode(h.rank))
          && w.At(InboxRq(h.rank)) == v.At(InboxRq(h.rank)) && w.At(InboxNode(h.rank)) == v.At(InboxNode(h.rank))
          && SameLinks(m, m', v.At(WalkRq(h.rank))) && SameLinks(m, m', v.At(WalkNode(h.rank))))
  }

  lemma ChainStable(m: Mem, m': Mem, h: nat, s: seq<nat>)
    requires Chain(m.blocks, h, s) && SameLinks(m, m', s)
    ensures Chain(m'.blocks, h, s)
  {
  }

  lemma PcStable(m: Mem, v: View, m': Mem, w: View, h: Agent, pc: Pc)
    requires PcOk(m, v, h, pc) && Untouched(m, v, m', w, h)
    ensures PcOk(m', w, h, pc)
  {
    match pc
    case TakeWalk(l, off) =>
      ChainStable(m, m', off, v.At(if l == NodeRq then WalkNode(h.rank) else WalkRq(h.rank)));
    case _ =>
  }

  /** A block whose place is not `p` is not linked from `p`. */
  lemma NotListed(v: View, o: nat, p: Place)
    requires v.Listed(p) && o in v.place && v.place[o] != p
    ensures o !in v.At(p)
  {
  }

  // ----- rewriting a loose block: SetMsg, SetNext

  lemma RewriteList(m: Mem, v: View, o: nat, k: Block, l: ListId)
    requires ListOk(m, v, l) && v.Listed(OnList(l)) && o in m.loose && LooseOk(m, v, o)
    ensures ListOk(m.(blocks := m.blocks[o := k]), v, l)
  {
    NotListed(v, o, OnList(l));
  }

  lemma RewriteCache(m: Mem, v: View, o: nat, k: Block, i: nat, b: nat)
    requires CacheOk(m, v, i, b) && v.Listed(Cached(i, b)) && o in m.loose && LooseOk(m, v, o)
    ensures CacheOk(m.(blocks := m.blocks[o := k]), v, i, b)
  {
    NotListed(v, o, Cached(i, b));
  }

  lemma RewriteHeap(m: Mem, o: nat, k: Block)
    requires HeapOk(m) && o in m.blocks && k.size == m.blocks[o].size
    ensures HeapOk(m.(blocks := m.blocks[o := k]))
  {
  }

  lemma RewriteBlocks(m: Mem, v: View, o: nat, k: Block)
    requires BlocksOk(m, v) && LooseOk(m, v, o) && o in m.loose
    requires k.size == m.Blk(o).size && k.owner == m.Blk(o).owner
    ensures o in m.blocks && BlocksOk(m.(blocks := m.blocks[o := k]), v)
  {
  }

  lemma Others(m: Mem, m': Mem, v: View)
    requires m'.inbox == m.inbox && m'.loose == m.loose
    requires forall r :: InboxOk(m, v, r)
    requires forall x :: LooseOk(m, v, x)
    ensures forall r :: InboxOk(m', v, r)
    ensures forall x :: LooseOk(m', v, x)
  {
    forall r ensures InboxOk(m', v, r) {
      assert InboxOk(m, v, r);
    }
    forall x ensures LooseOk(m', v, x) {
      assert LooseOk(m, v, x);
    }
  }

  /** Rewriting the message or the link of a loose block disturbs no list. */
  lemma Rewrite(m: Mem, v: View, o: nat, k: Block)
    requires MemOk(m, v) && v.Consistent() && o in m.loose
    requires k.size == m.Blk(o).size && k.owner == m.Blk(o).owner
    ensures MemOk(m.(blocks := m.blocks[o := k]), v)
  {
    hide HeapOk, BlocksOk, ListOk, CacheOk, InboxOk, LooseOk;
    var m' := m.(blocks := m.blocks[o := k]);
    assert LooseOk(m, v, o);
    RewriteBlocks(m, v, o, k);
    RewriteHeap(m, o, k);
    forall l ensures ListOk(m', v, l) {
      assert ListOk(m, v, l) && v.Listed(OnList(l));
      RewriteList(m, v, o, k, l);
    }
    forall i, b ensures CacheOk(m', v, i, b) {
      assert CacheOk(m, v, i, b) && v.Listed(Cached(i, b));
      RewriteCache(m, v, o, k, i, b);
    }
    Others(m, m', v);
  }

  // ----- moving blocks: the other memory operations

  lemma ChainTail(blocks: map<nat, Block>, h: nat, s: seq<nat>)
    requires Chain(blocks, h, s) && s != []
    ensures h == s[0] && h in blocks && Chain(blocks, blocks[h].next, s[1..])
  {
    var t := s[1..];
    assert forall k :: 0 <= k < |t| ==> t[k] == s[k + 1] && NextOf(t, k) == NextOf(s, k + 1);
  }

  /** A push's compare-and-swap is sound because it compares the head with the
      link just written: whatever happened in between, head and link agree now. */
  lemma ChainPush(blocks: map<nat, Block>, h: nat, s: seq<nat>, o: nat)
    requires Chain(blocks, h, s) && o in blocks && blocks[o].next == h
    ensures Chain(blocks, o, [o] + s)
  {
    var t := [o] + s;
    forall k | 0 <= k < |t| ensures t[k] in blocks && blocks[t[k]].next == NextOf(t, k) {
      if k > 0 {
        assert t[k] == s[k - 1] && NextOf(t, k) == NextOf(s, k - 1);
      }
    }
  }

  lemma ChainEmpty(blocks: map<nat, Block>, m: Mem, h: nat, s: seq<nat>)
    requires Chain(blocks, h, s) && blocks == m.blocks && HeapOk(m)
    ensures h == END <==> s == []
  {
    if s != [] {
      assert InSegment(m, s[0]);
    }
  }

  lemma HeapSame(m: Mem, m': Mem)
    requires HeapOk(m) && m'.heap == m.heap && m'.limit == m.limit && m'.blocks == m.blocks
    ensures HeapOk(m')
  {
    forall o | o in m'.blocks ensures InSegment(m', o) {
      assert InSegment(m, o);
    }
  }

  lemma BlocksMove(m: Mem, v: View, m': Mem, w: View, o: nat, p: Place)
    requires BlocksOk(m, v) && m'.blocks == m.blocks && o in m.blocks
    requires w.place == v.place[o := p] && BlockOk(m.blocks[o], p)
    ensures BlocksOk(m', w)
  {
    hide BlockOk;
  }

  lemma BlocksMoveAll(m: Mem, v: View, m': Mem, w: View, p: Place, q: Place)
    requires BlocksOk(m, v) && m'.blocks == m.blocks
    requires w == v.MoveAll(p, q)
    requires forall o :: o in m.blocks && v.place[o] == p ==> BlockOk(m.blocks[o], q)
    ensures BlocksOk(m', w)
  {
    hide BlockOk;
  }

  lemma LooseMove(m: Mem, v: View, m': Mem, w: View, o: nat, p: Place)
    requires forall x :: LooseOk(m, v, x)
    requires w.place == v.place[o := p]
    requires m'.loose == if Ordered(p) then m.loose - {o} else m.loose[o := p]
    ensures forall x :: LooseOk(m', w, x)
  {
    forall x ensures LooseOk(m', w, x) {
      assert LooseOk(m, v, x);
    }
  }

  lemma LooseMoveAll(m: Mem, v: View, m': Mem, w: View, p: Place, q: Place)
    requires forall x :: LooseOk(m, v, x)
    requires Ordered(p) && Ordered(q) && w == v.MoveAll(p, q) && m'.loose == m.loose
    ensures forall x :: LooseOk(m', w, x)
  {
    forall x ensures LooseOk(m', w, x) {
      assert LooseOk(m, v, x);
    }
  }

  lemma InboxSame(m: Mem, v: View, m': Mem, w: View)
    requires forall r :: InboxOk(m, v, r)
    requires m'.inbox == m.inbox
    requires forall r :: w.At(InboxRq(r)) == v.At(InboxRq(r)) && w.At(InboxNode(r)) == v.At(InboxNode(r))
    ensures forall r :: InboxOk(m', w, r)
  {
    forall r ensures InboxOk(m', w, r) {
      assert InboxOk(m, v, r);
    }
  }

  lemma ListSame(m: Mem, v: View, m': Mem, w: View, l: ListId)
    requires ListOk(m, v, l)
    requires m'.blocks == m.blocks && m'.heap == m.heap && m'.Head(l) == m.Head(l)
    requires w.At(OnList(l)) == v.At(OnList(l))
    ensures ListOk(m', w, l)
  {
  }

  lemma CacheSame(m: Mem, v: View, m': Mem, w: View, i: nat, b: nat)
    requires CacheOk(m, v, i, b)
    requires m'.blocks == m.blocks && m'.Cache(i, b) == m.Cache(i, b)
    requires w.At(Cached(i, b)) == v.At(Cached(i, b))
    ensures CacheOk(m', w, i, b)
  {
  }

  lemma BlocksLoosen(m: Mem, v: View, m': Mem, w: View, o: nat, p: Place)
    requires BlocksOk(m, v) && m'.blocks == m.blocks && o in m.blocks
    requires w.place == v.place[o := p] && !p.Cached? && !(p.OnList? && p.list.Ret?)
    ensures BlocksOk(m', w)
  {
    assert BlockOk(m.blocks[o], v.place[o]);
    BlocksMove(m, v, m', w, o, p);
  }

  lemma BlocksReturn(m: Mem, v: View, m': Mem, w: View, o: nat, l: ListId)
    requires BlocksOk(m, v) && m'.blocks == m.blocks && o in m.blocks
    requires w.place == v.place[o := OnList(l)] && (l.Ret? ==> l == FreeList(m.blocks[o]))
    ensures BlocksOk(m', w)
  {
    assert BlockOk(m.blocks[o], v.place[o]);
    BlocksMove(m, v, m', w, o, OnList(l));
  }

  lemma BlocksTake(m: Mem, v: View, m': Mem, w: View, p: Place, q: Place)
    requires BlocksOk(m, v) && m'.blocks == m.blocks && w == v.MoveAll(p, q)
    requires q.Cached? ==> p == OnList(Ret(q.host, q.bin))
    requires q.Cached? || q.WalkRq? || q.WalkNode?
    ensures BlocksOk(m', w)
  {
    forall o | o in m.blocks && v.place[o] == p ensures BlockOk(m.blocks[o], q) {
      assert BlockOk(m.blocks[o], p);
    }
    BlocksMoveAll(m, v, m', w, p, q);
  }

  lemma CachedOwner(m: Mem, v: View, o: nat)
    requires BlocksOk(m, v) && o in v.place && v.place[o].Cached?
    ensures o in m.blocks && m.blocks[o].owner == v.place[o].host
  {
    assert BlockOk(m.blocks[o], v.place[o]);
  }

  /** The head of a private list: a block that already names its owner. */
  lemma CacheHead(m: Mem, v: View, i: nat, b: nat)
    requires HeapOk(m) && BlocksOk(m, v) && CacheOk(m, v, i, b) && v.Listed(Cached(i, b)) && m.Cache(i, b) != END
    ensures var o, s := m.Cache(i, b), v.At(Cached(i, b));
            && s != [] && o == s[0] && o in m.blocks && Chain(m.blocks, m.blocks[o].next, s[1..])
            && PopCache(m, i, b).blocks == m.blocks
  {
    hide HeapOk, BlocksOk, Chain;
    var s, o := v.At(Cached(i, b)), m.Cache(i, b);
    ChainEmpty(m.blocks, m, o, s);
    ChainTail(m.blocks, o, s);
    CachedOwner(m, v, o);
  }

  lemma PopCacheMem(m: Mem, v: View, i: nat, b: nat)
    requires MemOk(m, v) && v.Consistent() && m.Cache(i, b) != END
    ensures v.At(Cached(i, b)) != [] && v.At(Cached(i, b))[0] == m.Cache(i, b)
    ensures MemOk(PopCache(m, i, b), v.PopTop(Cached(i, b), Hand(Sender(i))))
    ensures PopCache(m, i, b).blocks == m.blocks
  {
    hide HeapOk, BlocksOk, ListOk, InboxOk, LooseOk, Chain, View.Listed, Ordered;
    var o := m.Cache(i, b);
    assert CacheOk(m, v, i, b) && v.Listed(Cached(i, b));
    CacheHead(m, v, i, b);
    var m', w := PopCache(m, i, b), v.PopTop(Cached(i, b), Hand(Sender(i)));
    HeapSame(m, m');
    BlocksLoosen(m, v, m', w, o, Hand(Sender(i)));
    HandLoose(Sender(i));
    LooseMove(m, v, m', w, o, Hand(Sender(i)));
    InboxSame(m, v, m', w);
    forall l ensures ListOk(m', w, l) {
      assert ListOk(m, v, l);
      ListSame(m, v, m', w, l);
    }
    forall i': nat, b': nat ensures CacheOk(m', w, i', b') {
      assert CacheOk(m, v, i', b');
      if (i', b') != (i, b) {
        CacheSame(m, v, m', w, i', b');
      }
    }
  }

  lemma HandLoose(g: Agent)
    ensures !Ordered(Hand(g)) && !Ordered(Held)
  {
  }

  lemma EmptyChain(m: Mem)
    ensures Chain(m.blocks, END, [])
  {
  }

  lemma TakeReturnedMem(m: Mem, v: View, i: nat, b: nat)
    requires MemOk(m, v) && m.heap != NIL && m.Cache(i, b) == END && Valid(Ret(i, b))
    ensures v.At(Cached(i, b)) == []
    ensures MemOk(TakeReturned(m, i, b), v.MoveAll(OnList(Ret(i, b)), Cached(i, b)))
  {
    hide HeapOk, BlocksOk, InboxOk, LooseOk, Chain;
    var p, q := OnList(Ret(i, b)), Cached(i, b);
    assert CacheOk(m, v, i, b) && ListOk(m, v, Ret(i, b));
    ChainEmpty(m.blocks, m, END, v.At(q));
    var m', w := TakeReturned(m, i, b), v.MoveAll(p, q);
    HeapSame(m, m');
    BlocksTake(m, v, m', w, p, q);
    LooseMoveAll(m, v, m', w, p, q);
    InboxSame(m, v, m', w);
    TakenLists(m, v, m', w, Ret(i, b), q);
    forall i': nat, b': nat ensures CacheOk(m', w, i', b') {
      assert CacheOk(m, v, i', b');
      if (i', b') != (i, b) {
        CacheSame(m, v, m', w, i', b');
      }
    }
  }

  lemma TakenLists(m: Mem, v: View, m': Mem, w: View, l: ListId, q: Place)
    requires forall l' :: ListOk(m, v, l')
    requires m'.blocks == m.blocks && m'.heap == m.heap && m'.heads == m.heads[l := END]
    requires w == v.MoveAll(OnList(l), q) && !q.OnList?
    ensures forall l' :: ListOk(m', w, l')
  {
    hide Chain;
    forall l' ensures ListOk(m', w, l') {
      assert ListOk(m, v, l');
      if l' == l {
        EmptyChain(m');
      } else {
        ListSame(m, v, m', w, l');
      }
    }
  }

  lemma CachesSame(m: Mem, v: View, m': Mem, w: View)
    requires forall i, b :: CacheOk(m, v, i, b)
    requires m'.blocks == m.blocks && m'.cache == m.cache
    requires forall i, b :: w.At(Cached(i, b)) == v.At(Cached(i, b))
    ensures forall i, b :: CacheOk(m', w, i, b)
  {
    hide Chain;
    forall i: nat, b: nat ensures CacheOk(m', w, i, b) {
      assert CacheOk(m, v, i, b);
      CacheSame(m, v, m', w, i, b);
    }
  }

  /** takeList_'s exchange on a receive queue. */
  lemma TakeHeadMem(m: Mem, v: View, l: ListId, q: Place)
    requires MemOk(m, v) && (q.WalkRq? || q.WalkNode?)
    ensures MemOk(TakeHead(m, l), v.MoveAll(OnList(l), q))
  {
    hide HeapOk, BlocksOk, ListOk, CacheOk, InboxOk, LooseOk, Chain;
    var p := OnList(l);
    var m', w := TakeHead(m, l), v.MoveAll(p, q);
    HeapSame(m, m');
    BlocksTake(m, v, m', w, p, q);
    LooseMoveAll(m, v, m', w, p, q);
    InboxSame(m, v, m', w);
    TakenLists(m, v, m', w, l, q);
    CachesSame(m, v, m', w);
  }

  lemma PushedLists(m: Mem, v: View, m': Mem, w: View, l: ListId, o: nat)
    requires forall l' :: ListOk(m, v, l')
    requires m'.blocks == m.blocks && m'.heap == m.heap && m'.heads == m.heads[l := o]
    requires o in m.blocks && m.blocks[o].next == m.Head(l)
    requires w == v.Push(o, OnList(l))
    ensures forall l' :: ListOk(m', w, l')
  {
    hide Chain;
    forall l' ensures ListOk(m', w, l') {
      assert ListOk(m, v, l');
      if l' != l {
        ListSame(m, v, m', w, l');
      } else if Valid(l) && m.heap != NIL {
        ChainPush(m.blocks, m.Head(l), v.At(OnList(l)), o);
      }
    }
  }

  lemma LooseBlock(m: Mem, v: View, o: nat)
    requires BlocksOk(m, v) && LooseOk(m, v, o) && o in m.loose
    ensures o in m.blocks
  {
  }

  lemma PushHeadMem(m: Mem, v: View, o: nat, l: ListId)
    requires MemOk(m, v) && o in m.loose && m.Blk(o).next == m.Head(l)
    requires l.Ret? ==> l == FreeList(m.Blk(o))
    ensures MemOk(PushHead(m, o, l), v.Push(o, OnList(l)))
  {
    hide HeapOk, BlocksOk, ListOk, CacheOk, InboxOk, LooseOk, Chain;
    var m', w := PushHead(m, o, l), v.Push(o, OnList(l));
    assert LooseOk(m, v, o);
    LooseBlock(m, v, o);
    HeapSame(m, m');
    BlocksReturn(m, v, m', w, o, l);
    LooseMove(m, v, m', w, o, OnList(l));
    InboxSame(m, v, m', w);
    PushedLists(m, v, m', w, l, o);
    CachesSame(m, v, m', w);
  }

  lemma ListsSame(m: Mem, v: View, m': Mem, w: View)
    requires forall l :: ListOk(m, v, l)
    requires m'.blocks == m.blocks && m'.heap == m.heap && m'.heads == m.heads
    requires forall l :: w.At(OnList(l)) == v.At(OnList(l))
    ensures forall l :: ListOk(m', w, l)
  {
    hide Chain;
    forall l ensures ListOk(m', w, l) {
      assert ListOk(m, v, l);
      ListSame(m, v, m', w, l);
    }
  }

  /** Free begins: the block passes from the process into the freeing PE's hand. */
  lemma LoosenMem(m: Mem, v: View, o: nat, p: Place)
    requires MemOk(m, v) && o in m.loose && (p.Hand? || p.Held?)
    ensures MemOk(m.(loose := m.loose[o := p]), v.Put(o, p))
  {
    hide HeapOk, BlocksOk, ListOk, CacheOk, InboxOk, LooseOk, Chain;
    var m', w := m.(loose := m.loose[o := p]), v.Put(o, p);
    assert LooseOk(m, v, o);
    LooseBlock(m, v, o);
    HeapSame(m, m');
    BlocksLoosen(m, v, m', w, o, p);
    LooseMove(m, v, m', w, o, p);
    InboxSame(m, v, m', w);
    ListsSame(m, v, m', w);
    CachesSame(m, v, m', w);
  }

  /** One step of takeList_'s walk: `off` heads the walked list. */
  lemma AppendInboxMem(m: Mem, v: View, r: nat, off: nat, p: Place, q: Place)
    requires MemOk(m, v) && off != END && Chain(m.blocks, off, v.At(p))
    requires (p == WalkRq(r) && q == InboxRq(r) && v.At(InboxNode(r)) == []) ||
             (p == WalkNode(r) && q == InboxNode(r))
    requires v.Consistent()
    ensures v.At(p) != [] && off == v.At(p)[0] && off in m.blocks
    ensures MemOk(AppendInbox(m, r, off), v.Shift(p, q))
    ensures Chain(m.blocks, m.Blk(off).next, v.At(p)[1..])
  {
    hide HeapOk, BlocksOk, ListOk, CacheOk, InboxOk, LooseOk, Chain;
    ChainEmpty(m.blocks, m, off, v.At(p));
    ChainTail(m.blocks, off, v.At(p));
    var m', w := AppendInbox(m, r, off), v.Shift(p, q);
    HeapSame(m, m');
    BlocksLoosen(m, v, m', w, off, q);
    WalkedLoose(m, v, m', w, off, p, q);
    AppendedInbox(m, v, m', w, r, p, q);
    ListsSame(m, v, m', w);
    CachesSame(m, v, m', w);
  }

  lemma WalkedLoose(m: Mem, v: View, m': Mem, w: View, o: nat, p: Place, q: Place)
    requires forall x :: LooseOk(m, v, x)
    requires v.Consistent() && Ordered(p) && Ordered(q) && o in v.At(p)
    requires w.place == v.place[o := q] && m'.loose == m.loose
    ensures forall x :: LooseOk(m', w, x)
  {
    assert v.Listed(p) && LooseOk(m, v, o);
    assert m.loose - {o} == m.loose;
    LooseMove(m, v, m', w, o, q);
  }

  lemma AppendedInbox(m: Mem, v: View, m': Mem, w: View, r: nat, p: Place, q: Place)
    requires forall x :: InboxOk(m, v, x)
    requires v.At(p) != [] && p != q && w == v.Shift(p, q)
    requires (p == WalkRq(r) && q == InboxRq(r) && v.At(InboxNode(r)) == []) ||
             (p == WalkNode(r) && q == InboxNode(r))
    requires m' == AppendInbox(m, r, v.At(p)[0])
    ensures forall x :: InboxOk(m', w, x)
  {
    forall x: nat ensures InboxOk(m', w, x) {
      assert InboxOk(m, v, x);
    }
  }

  lemma PopInboxMem(m: Mem, v: View, r: nat, p: Place)
    requires MemOk(m, v) && v.Consistent() && m.Inbox(r) != []
    requires p == if v.At(InboxNode(r)) != [] then InboxNode(r) else InboxRq(r)
    ensures v.At(p) != [] && Last(v.At(p)) == Last(m.Inbox(r))
    ensures MemOk(PopInbox(m, r), v.PopBack(p, Held))
  {
    hide HeapOk, BlocksOk, ListOk, CacheOk, LooseOk, Chain;
    InboxBack(m, v, r, p);
    var o, m', w := Last(m.Inbox(r)), PopInbox(m, r), v.PopBack(p, Held);
    PlacedBlock(m, v, o);
    HeapSame(m, m');
    BlocksLoosen(m, v, m', w, o, Held);
    LooseMove(m, v, m', w, o, Held);
    PoppedInbox(m, v, m', w, r, p);
    ListsSame(m, v, m', w);
    CachesSame(m, v, m', w);
  }

  lemma InboxBack(m: Mem, v: View, r: nat, p: Place)
    requires InboxOk(m, v, r) && v.Consistent() && m.Inbox(r) != []
    requires p == if v.At(InboxNode(r)) != [] then InboxNode(r) else InboxRq(r)
    ensures v.At(p) != [] && Last(v.At(p)) == Last(m.Inbox(r))
    ensures Last(v.At(p)) in v.place && v.place[Last(v.At(p))] == p
  {
    assert v.Listed(p);
  }

  lemma PlacedBlock(m: Mem, v: View, o: nat)
    requires BlocksOk(m, v) && o in v.place
    ensures o in m.blocks
  {
  }

  lemma PoppedInbox(m: Mem, v: View, m': Mem, w: View, r: nat, p: Place)
    requires forall x :: InboxOk(m, v, x)
    requires m.Inbox(r) != [] && m' == PopInbox(m, r)
    requires p == if v.At(InboxNode(r)) != [] then InboxNode(r) else InboxRq(r)
    requires v.At(p) != [] && w == v.PopBack(p, Held)
    ensures forall x :: InboxOk(m', w, x)
  {
    forall x: nat ensures InboxOk(m', w, x) {
      assert InboxOk(m, v, x);
    }
  }

  // ----- cutting a block and publishing the heap

  lemma StrideAligned(size: nat)
    ensures Stride(size) >= BLOCK_HEADER + size && Stride(size) % ALIGN == 0
  {
  }

  lemma CutHeap(m: Mem, i: nat, b: nat)
    requires HeapOk(m) && m.heap != NIL && m.heap + Stride(Cut(b)) <= m.limit
    ensures HeapOk(CutBlock(m, i, b)) && m.heap !in m.blocks
  {
    hide Cut, Stride;
    var m' := CutBlock(m, i, b);
    StrideAligned(Cut(b));
    HeapUnused(m);
    forall o | o in m'.blocks ensures InSegment(m', o) {
      if o != m.heap {
        assert InSegment(m, o);
      }
    }
    CutApart(m, i, b);
  }

  lemma HeapUnused(m: Mem)
    requires HeapOk(m)
    ensures m.heap !in m.blocks
  {
    hide Stride;
    if m.heap in m.blocks {
      assert InSegment(m, m.heap);
      StrideAligned(m.blocks[m.heap].size);
    }
  }

  /** The new block lies beyond all others. */
  lemma CutApart(m: Mem, i: nat, b: nat)
    requires HeapOk(m) && m.heap !in m.blocks
    ensures var m' := CutBlock(m, i, b);
            forall o, p :: o in m'.blocks && p in m'.blocks && o < p ==> o + Stride(m'.blocks[o].size) <= p
  {
    hide Cut, Stride;
    var m' := CutBlock(m, i, b);
    forall o, p | o in m'.blocks && p in m'.blocks && o < p ensures o + Stride(m'.blocks[o].size) <= p {
      if p == m.heap {
        assert InSegment(m, o);
      } else {
        assert InSegment(m, p);
        StrideAligned(m.blocks[p].size);
        assert o != m.heap;
      }
    }
  }

  lemma CutBlocks(m: Mem, v: View, i: nat, b: nat)
    requires BlocksOk(m, v) && i < HOST_PES && b < RET_BINS && m.heap !in m.blocks
    ensures BlocksOk(CutBlock(m, i, b), v.Put(m.heap, Hand(Sender(i))))
  {
    hide BlockOk;
    CutBlockOk(i, b);
  }

  lemma CutBlockOk(i: nat, b: nat)
    requires i < HOST_PES && b < RET_BINS
    ensures BlockOk(Block(Cut(b), i, NIL, NO_MSG), Hand(Sender(i)))
  {
    ClassOfCut(b);
  }

  lemma CutChain(m: Mem, m': Mem, h: nat, s: seq<nat>)
    requires Chain(m.blocks, h, s) && forall o :: o in m.blocks ==> o in m'.blocks && m'.blocks[o] == m.blocks[o]
    ensures Chain(m'.blocks, h, s)
  {
  }

  lemma CutMem(m: Mem, v: View, i: nat, b: nat)
    requires MemOk(m, v) && m.heap != NIL && m.heap + Stride(Cut(b)) <= m.limit && i < HOST_PES && b < RET_BINS
    ensures MemOk(CutBlock(m, i, b), v.Put(m.heap, Hand(Sender(i))))
    ensures m.heap !in v.place
  {
    hide HeapOk, BlocksOk, InboxOk, LooseOk, Chain, Cut, Stride;
    var m', w := CutBlock(m, i, b), v.Put(m.heap, Hand(Sender(i)));
    CutHeap(m, i, b);
    CutBlocks(m, v, i, b);
    SameKeys(m, v);
    LooseMove(m, v, m', w, m.heap, Hand(Sender(i)));
    InboxSame(m, v, m', w);
    forall l ensures ListOk(m', w, l) {
      assert ListOk(m, v, l);
      if Valid(l) && m.heap != NIL {
        CutChain(m, m', m.Head(l), v.At(OnList(l)));
      }
    }
    forall i': nat, b': nat ensures CacheOk(m', w, i', b') {
      assert CacheOk(m, v, i', b');
      CutChain(m, m', m.Cache(i', b'), v.At(Cached(i', b')));
    }
  }

  lemma SameKeys(m: Mem, v: View)
    requires BlocksOk(m, v)
    ensures m.blocks.Keys == v.place.Keys
  {
  }

  lemma ListedIn(v: View, p: Place)
    requires v.Listed(p)
    ensures v.At(p) == [] || v.At(p)[0] in v.place.Keys
  {
  }

  /** Before the heap offset is published there are no blocks at all. */
  lemma UnpublishedEmpty(m: Mem, v: View)
    requires MemOk(m, v) && v.Consistent() && m.heap == NIL
    ensures v.place == map[] && m.blocks == map[]
    ensures forall p :: v.At(p) == []
  {
    assert v.place.Keys == {};
    forall p ensures |v.At(p)| == 0 {
      assert v.Listed(p);
      ListedIn(v, p);
    }
  }

  lemma InitListMem(m: Mem, v: View, l: ListId)
    requires MemOk(m, v) && m.heap == NIL
    ensures MemOk(TakeHead(m, l), v)
  {
    hide HeapOk, BlocksOk, CacheOk, InboxOk, LooseOk, Chain;
    var m' := TakeHead(m, l);
    HeapSame(m, m');
    BlocksSame(m, m', v);
    Others(m, m', v);
    CachesSame(m, v, m', v);
  }

  lemma BlocksSame(m: Mem, m': Mem, v: View)
    requires BlocksOk(m, v) && m'.blocks == m.blocks
    ensures BlocksOk(m', v)
  {
    hide BlockOk;
  }

  lemma PublishMem(m: Mem, v: View)
    requires MemOk(m, v) && v.Consistent() && m.heap == NIL
    requires forall l :: Valid(l) ==> m.Head(l) == END
    ensures MemOk(m.(heap := BEGIN), v)
  {
    hide BlocksOk, CacheOk, InboxOk, LooseOk, Chain;
    var m' := m.(heap := BEGIN);
    UnpublishedEmpty(m, v);
    BlocksSame(m, m', v);
    Others(m, m', v);
    CachesSame(m, v, m', v);
    EmptyChain(m');
  }

  // ----- one action, one event

  /** A step of `g` that leaves the others alone refines if its own part does. */
  lemma Assemble(c: State, a: Abs, c': State, a': Abs, g: Agent)
    requires Refines(c, a)
    requires MemOk(c'.mem, a'.view) && PayOk(c'.mem, a'.pay) && PcOk(c'.mem, a'.view, g, c'.PcOf(g))
    requires forall h :: h != g ==> c'.PcOf(h) == c.PcOf(h) && Untouched(c.mem, a.view, c'.mem, a'.view, h)
    ensures Refines(c', a')
  {
    hide MemOk, PayOk, PcOk, Untouched;
    forall h ensures PcOk(c'.mem, a'.view, h, c'.PcOf(h)) {
      assert PcOk(c.mem, a.view, h, c.PcOf(h));
      if h != g {
        PcStable(c.mem, a.view, c'.mem, a'.view, h, c.PcOf(h));
      }
    }
  }

  lemma RewriteUntouched(m: Mem, v: View, o: nat, k: Block, h: Agent)
    requires LooseOk(m, v, o) && v.Consistent() && o in m.loose && m.loose[o] != Hand(h)
    ensures Untouched(m, v, m.(blocks := m.blocks[o := k]), v, h)
  {
    if h.Receiver? {
      assert v.Listed(WalkRq(h.rank)) && v.Listed(WalkNode(h.rank));
      NotListed(v, o, WalkRq(h.rank));
      NotListed(v, o, WalkNode(h.rank));
    }
  }

  lemma SetMsgRefines(c: State, a: Abs, o: nat, msg: Msg, g: Agent)
    requires Refines(c, a) && a.view.Consistent() && o in c.mem.loose && c.PcOf(g) == Idle
    requires c.mem.loose[o] == Hand(g) || c.mem.loose[o] == Held
    ensures Can(a, Write(o, msg)) && Refines(c.(mem := SetMsg(c.mem, o, msg)), Do(a, Write(o, msg)))
  {
    hide ListOk, CacheOk, InboxOk, HeapOk, BlocksOk, Chain;
    var m, v := c.mem, a.view;
    var m', a' := SetMsg(m, o, msg), Do(a, Write(o, msg));
    assert LooseOk(m, v, o);
    LooseBlock(m, v, o);
    Rewrite(m, v, o, m.Blk(o).(msg := msg));
    forall h | h != g ensures Untouched(m, v, m', v, h) {
      RewriteUntouched(m, v, o, m.Blk(o).(msg := msg), h);
    }
    assert PcOk(m, v, g, c.PcOf(g));
    Assemble(c, a, c.(mem := m'), a', g);
  }

  /** A step that changes no memory. */
  lemma PcOnly(c: State, a: Abs, g: Agent, pc: Pc)
    requires Refines(c, a) && PcOk(c.mem, a.view, g, pc)
    ensures Refines(State(c.mem, c.pcs[g := pc]), a)
  {
    hide MemOk, PayOk, PcOk;
    Assemble(c, a, State(c.mem, c.pcs[g := pc]), a, g);
  }


  lemma UntouchedSame(m: Mem, v: View, m': Mem, w: View, h: Agent)
    requires m'.heap == m.heap && m'.blocks == m.blocks
    requires h.Sender? ==> forall b :: m'.Cache(h.host, b) == m.Cache(h.host, b)
    requires forall o :: o in v.place && v.place[o] == Hand(h) ==> o in w.place && w.place[o] == Hand(h)
    requires h.Receiver? ==>
               && w.At(WalkRq(h.rank)) == v.At(WalkRq(h.rank)) && w.At(WalkNode(h.rank)) == v.At(WalkNode(h.rank))
               && w.At(InboxRq(h.rank)) == v.At(InboxRq(h.rank)) && w.At(InboxNode(h.rank)) == v.At(InboxNode(h.rank))
    ensures Untouched(m, v, m', w, h)
  {
  }

  lemma PaySame(m: Mem, m': Mem, pay: map<nat, Msg>)
    requires PayOk(m, pay) && m'.blocks == m.blocks
    ensures PayOk(m', pay)
  {
  }

  lemma PopCacheFrame(m: Mem, v: View, i: nat, b: nat, h: Agent)
    requires v.At(Cached(i, b)) != [] && v.Listed(Cached(i, b)) && PopCache(m, i, b).blocks == m.blocks
    requires h != Sender(i)
    ensures Untouched(m, v, PopCache(m, i, b), v.PopTop(Cached(i, b), Hand(Sender(i))), h)
  {
    UntouchedSame(m, v, PopCache(m, i, b), v.PopTop(Cached(i, b), Hand(Sender(i))), h);
  }

  lemma PopCacheRefines(c: State, a: Abs, i: nat, b: nat)
    requires Refines(c, a) && a.view.Consistent() && c.mem.Cache(i, b) != END
    ensures Can(a, AllocCached(i, b))
    ensures Refines(State(PopCache(c.mem, i, b), c.pcs[Sender(i) := Idle]), Do(a, AllocCached(i, b)))
  {
    hide MemOk, PayOk, Untouched, PopCache, View.Listed;
    var m, v := c.mem, a.view;
    PopCacheMem(m, v, i, b);
    var m', a' := PopCache(m, i, b), Do(a, AllocCached(i, b));
    PaySame(m, m', a.pay);
    forall h | h != Sender(i) ensures Untouched(m, v, m', a'.view, h) {
      assert v.Listed(Cached(i, b));
      PopCacheFrame(m, v, i, b, h);
    }
    assert PcOk(m', a'.view, Sender(i), Idle);
    hide PcOk;
    Assemble(c, a, State(m', c.pcs[Sender(i) := Idle]), a', Sender(i));
  }

  lemma TakeReturnedFrame(m: Mem, v: View, i: nat, b: nat, h: Agent)
    requires h != Sender(i) && v.At(Cached(i, b)) == []
    ensures Untouched(m, v, TakeReturned(m, i, b), v.MoveAll(OnList(Ret(i, b)), Cached(i, b)), h)
  {
    UntouchedSame(m, v, TakeReturned(m, i, b), v.MoveAll(OnList(Ret(i, b)), Cached(i, b)), h);
  }

  lemma TakeReturnedRefines(c: State, a: Abs, i: nat, b: nat)
    requires Refines(c, a) && c.PcOf(Sender(i)) == AllocTake(b)
    ensures Can(a, TakeFreed(i, b))
    ensures var (m', pc) := StepAgent(c.mem, Sender(i), AllocTake(b), false);
            Refines(State(m', c.pcs[Sender(i) := pc]), Do(a, TakeFreed(i, b)))
  {
    hide MemOk, PayOk, Untouched;
    var m, v, g := c.mem, a.view, Sender(i);
    assert PcOk(m, v, g, c.PcOf(g));
    TakeReturnedMem(m, v, i, b);
    var (m', pc) := StepAgent(m, g, AllocTake(b), false);
    var w := v.MoveAll(OnList(Ret(i, b)), Cached(i, b));
    PaySame(m, m', a.pay);
    forall h | h != g ensures Untouched(m, v, m', w, h) {
      TakeReturnedFrame(m, v, i, b, h);
    }
    assert PcOk(m', w, g, pc);
    hide PcOk;
    Assemble(c, a, State(m', c.pcs[g := pc]), Do(a, TakeFreed(i, b)), g);
  }

  lemma CutUntouched(m: Mem, v: View, i: nat, b: nat, h: Agent)
    requires h != Sender(i) && m.heap !in m.blocks && m.blocks.Keys == v.place.Keys
    ensures Untouched(m, v, CutBlock(m, i, b), v.Put(m.heap, Hand(Sender(i))), h)
  {
    hide Cut, Stride;
    StrideMin(b);
  }

  lemma CutPay(m: Mem, i: nat, b: nat, pay: map<nat, Msg>)
    requires PayOk(m, pay) && m.heap !in m.blocks
    ensures PayOk(CutBlock(m, i, b), pay)
  {
  }

  lemma CutRefines(c: State, a: Abs, i: nat, b: nat)
    requires Refines(c, a) && i < HOST_PES && b < RET_BINS
    requires c.mem.heap != NIL && c.mem.heap + Stride(Cut(b)) <= c.mem.limit
    ensures Can(a, CutNew(i, c.mem.heap))
    ensures Refines(State(CutBlock(c.mem, i, b), c.pcs[Sender(i) := Idle]), Do(a, CutNew(i, c.mem.heap)))
  {
    hide HeapOk, BlocksOk, ListOk, CacheOk, InboxOk, LooseOk, Chain, Cut, Stride, Untouched, PayOk, CutBlock;
    var m, v, g := c.mem, a.view, Sender(i);
    CutMem(m, v, i, b);
    SameKeys(m, v);
    var m', a' := CutBlock(m, i, b), Do(a, CutNew(i, m.heap));
    CutPay(m, i, b, a.pay);
    forall h | h != g ensures Untouched(m, v, m', a'.view, h) {
      CutUntouched(m, v, i, b, h);
    }
    Assemble(c, a, State(m', c.pcs[g := Idle]), a', g);
  }

  lemma StrideMin(b: nat)
    ensures Stride(Cut(b)) > 0
  {
  }

  lemma FreeListNext(k: Block, next: nat)
    ensures FreeList(k.(next := next)) == FreeList(k)
  {
  }

  lemma SetNextPc(m: Mem, v: View, g: Agent, o: nat, l: ListId, prev: nat)
    requires Pushing(m, v, g, o, l) && o in m.blocks
    ensures PcOk(SetNext(m, o, prev), v, g, PushCas(o, l, prev))
  {
    hide FreeList;
    FreeListNext(m.Blk(o), prev);
  }

  lemma SetNextPay(m: Mem, o: nat, next: nat, pay: map<nat, Msg>)
    requires PayOk(m, pay) && o in m.blocks
    ensures PayOk(SetNext(m, o, next), pay)
  {
  }

  /** Whose hand holds what is pushed. */
  lemma PushedIsLoose(m: Mem, v: View, g: Agent, o: nat, l: ListId)
    requires MemOk(m, v) && Pushing(m, v, g, o, l)
    ensures o in m.loose && m.loose[o] == Hand(g) && o in m.blocks
  {
    hide HeapOk, ListOk, CacheOk, InboxOk, BlockOk;
    assert LooseOk(m, v, o);
  }

  lemma SetNextRefines(c: State, a: Abs, g: Agent, o: nat, l: ListId, prev: nat)
    requires Refines(c, a) && a.view.Consistent() && c.PcOf(g) == PushLink(o, l, prev)
    ensures Refines(State(SetNext(c.mem, o, prev), c.pcs[g := PushCas(o, l, prev)]), a)
  {
    hide HeapOk, BlocksOk, ListOk, CacheOk, InboxOk, LooseOk, Pushing, PayOk, Untouched;
    var m, v := c.mem, a.view;
    assert PcOk(m, v, g, c.PcOf(g)) && LooseOk(m, v, o);
    PushedIsLoose(m, v, g, o, l);
    Rewrite(m, v, o, m.Blk(o).(next := prev));
    var m' := SetNext(m, o, prev);
    forall h | h != g ensures Untouched(m, v, m', v, h) {
      RewriteUntouched(m, v, o, m.Blk(o).(next := prev), h);
    }
    SetNextPc(m, v, g, o, l, prev);
    SetNextPay(m, o, prev, a.pay);
    hide PcOk;
    Assemble(c, a, State(m', c.pcs[g := PushCas(o, l, prev)]), a, g);
  }

  lemma PushHeadFrame(m: Mem, v: View, g: Agent, o: nat, l: ListId, h: Agent)
    requires Pushing(m, v, g, o, l) && h != g
    ensures Untouched(m, v, PushHead(m, o, l), v.Push(o, OnList(l)), h)
  {
    var w := v.Push(o, OnList(l));
    assert forall x :: x in v.place && v.place[x] == Hand(h) ==> x in w.place && w.place[x] == Hand(h);
    hide Untouched, Pushing, View.Push;
    UntouchedSame(m, v, PushHead(m, o, l), w, h);
  }

  lemma PushHeadOwn(m: Mem, v: View, g: Agent, o: nat, l: ListId)
    requires Pushing(m, v, g, o, l)
    ensures PcOk(PushHead(m, o, l), v.Push(o, OnList(l)), g, Idle)
  {
    hide View.Push;
    assert NoWalk(v.Push(o, OnList(l)), g);
  }

  function PushEvent(g: Agent, o: nat, l: ListId): Event {
    if g.Sender? then PushSend(g.host, o) else PushFree(g.rank, o, l)
  }

  lemma PushDo(m: Mem, a: Abs, g: Agent, o: nat, l: ListId)
    requires Pushing(m, a.view, g, o, l) && m.Blk(o).msg == a.Pay(o)
    ensures var e := PushEvent(g, o, l);
            Can(a, e) && Do(a, e).view == a.view.Push(o, OnList(l)) && Do(a, e).pay == a.pay
    ensures l.Ret? ==> l == FreeList(m.Blk(o))
  {
  }

  lemma PushHeadRefines(c: State, a: Abs, g: Agent, o: nat, l: ListId, prev: nat)
    requires Refines(c, a) && c.PcOf(g) == PushCas(o, l, prev) && c.mem.Head(l) == prev
    ensures Can(a, PushEvent(g, o, l))
    ensures Refines(State(PushHead(c.mem, o, l), c.pcs[g := Idle]), Do(a, PushEvent(g, o, l)))
  {
    hide MemOk, PayOk, Untouched, Pushing, Can, Do, PushEvent, View.Push, Cut, ClassOf, FreeList, ListOf;
    var m, v := c.mem, a.view;
    assert PcOk(m, v, g, c.PcOf(g));
    PushedIsLoose(m, v, g, o, l);
    PayAt(m, a, o);
    PushDo(m, a, g, o, l);
    PushHeadMem(m, v, o, l);
    var m', w := PushHead(m, o, l), v.Push(o, OnList(l));
    PaySame(m, m', a.pay);
    PushHeadOwn(m, v, g, o, l);
    forall h | h != g ensures Untouched(m, v, m', w, h) {
      PushHeadFrame(m, v, g, o, l, h);
    }
    hide PcOk;
    Assemble(c, a, State(m', c.pcs[g := Idle]), Do(a, PushEvent(g, o, l)), g);
  }

  lemma PayAt(m: Mem, a: Abs, o: nat)
    requires PayOk(m, a.pay) && o in m.blocks
    ensures m.Blk(o).msg == a.Pay(o)
  {
  }

  lemma ListChain(m: Mem, v: View, l: ListId)
    requires MemOk(m, v) && Valid(l) && m.heap != NIL
    ensures Chain(m.blocks, m.Head(l), v.At(OnList(l)))
  {
    hide HeapOk, BlocksOk, CacheOk, InboxOk, LooseOk, Chain;
    assert ListOk(m, v, l);
  }

  function WalkPlace(r: nat, l: ListId): Place {
    if l == NodeRq then WalkNode(r) else WalkRq(r)
  }

  function InboxPlace(r: nat, l: ListId): Place {
    if l == NodeRq then InboxNode(r) else InboxRq(r)
  }

  /** What another PE sees of the view is the same. */
  ghost predicate SameFor(v: View, w: View, h: Agent) {
    && (forall o :: o in v.place && v.place[o] == Hand(h) ==> o in w.place && w.place[o] == Hand(h))
    && (h.Receiver? ==>
          && w.At(WalkRq(h.rank)) == v.At(WalkRq(h.rank)) && w.At(WalkNode(h.rank)) == v.At(WalkNode(h.rank))
          && w.At(InboxRq(h.rank)) == v.At(InboxRq(h.rank)) && w.At(InboxNode(h.rank)) == v.At(InboxNode(h.rank)))
  }

  lemma MoveAllFor(v: View, r: nat, l: ListId, h: Agent)
    requires h != Receiver(r)
    ensures SameFor(v, v.MoveAll(OnList(l), WalkPlace(r, l)), h)
  {
  }

  lemma ShiftFor(v: View, r: nat, l: ListId, h: Agent)
    requires h != Receiver(r) && v.At(WalkPlace(r, l)) != []
    requires v.At(WalkPlace(r, l))[0] in v.place && v.place[v.At(WalkPlace(r, l))[0]] == WalkPlace(r, l)
    ensures SameFor(v, v.Shift(WalkPlace(r, l), InboxPlace(r, l)), h)
  {
  }

  lemma TakeHeadFrame(m: Mem, v: View, r: nat, l: ListId, h: Agent)
    requires h != Receiver(r)
    ensures Untouched(m, v, TakeHead(m, l), v.MoveAll(OnList(l), WalkPlace(r, l)), h)
  {
    hide Untouched, View.MoveAll;
    MoveAllFor(v, r, l, h);
    UntouchedSame(m, v, TakeHead(m, l), v.MoveAll(OnList(l), WalkPlace(r, l)), h);
  }

  lemma TakeHeadOwn(m: Mem, v: View, r: nat, l: ListId)
    requires Taking(m, v, Receiver(r), l) && Chain(m.blocks, m.Head(l), v.At(OnList(l)))
    ensures PcOk(TakeHead(m, l), v.MoveAll(OnList(l), WalkPlace(r, l)), Receiver(r), TakeWalk(l, m.Head(l)))
  {
    hide Chain, View.MoveAll;
    assert Walking(TakeHead(m, l), v.MoveAll(OnList(l), WalkPlace(r, l)), Receiver(r), l, m.Head(l));
  }

  function TakeEvent(r: nat, l: ListId): Event {
    if l == NodeRq then TakeNode(r) else TakeRq(r)
  }

  lemma TakeDo(m: Mem, a: Abs, r: nat, l: ListId)
    requires Taking(m, a.view, Receiver(r), l)
    ensures var e := TakeEvent(r, l);
            Can(a, e) && Do(a, e).view == a.view.MoveAll(OnList(l), WalkPlace(r, l)) && Do(a, e).pay == a.pay
    ensures Valid(l) && m.heap != NIL
  {
  }

  lemma TakeHeadRefines(c: State, a: Abs, r: nat, l: ListId)
    requires Refines(c, a) && c.PcOf(Receiver(r)) == TakeExchange(l)
    ensures Can(a, TakeEvent(r, l))
    ensures Refines(State(TakeHead(c.mem, l), c.pcs[Receiver(r) := TakeWalk(l, c.mem.Head(l))]),
                    Do(a, TakeEvent(r, l)))
  {
    hide MemOk, PayOk, Untouched, Chain, Taking, Can, Do, TakeEvent;
    var m, v, g := c.mem, a.view, Receiver(r);
    assert PcOk(m, v, g, c.PcOf(g));
    TakeDo(m, a, r, l);
    ListChain(m, v, l);
    TakeHeadMem(m, v, l, WalkPlace(r, l));
    var m', w, pc := TakeHead(m, l), v.MoveAll(OnList(l), WalkPlace(r, l)), TakeWalk(l, m.Head(l));
    PaySame(m, m', a.pay);
    TakeHeadOwn(m, v, r, l);
    forall h | h != g ensures Untouched(m, v, m', w, h) {
      TakeHeadFrame(m, v, r, l, h);
    }
    hide PcOk;
    Assemble(c, a, State(m', c.pcs[g := pc]), Do(a, TakeEvent(r, l)), g);
  }

  lemma PlaceOf(v: View, p: Place, k: nat)
    requires v.Consistent() && k < |v.At(p)|
    ensures v.At(p)[k] in v.place && v.place[v.At(p)[k]] == p
  {
    assert v.Listed(p);
  }

  lemma WalkFrame(m: Mem, v: View, r: nat, l: ListId, off: nat, h: Agent)
    requires v.Consistent() && h != Receiver(r) && v.At(WalkPlace(r, l)) != []
    ensures Untouched(m, v, AppendInbox(m, r, off), v.Shift(WalkPlace(r, l), InboxPlace(r, l)), h)
  {
    hide View.Consistent, View.Shift, Untouched;
    PlaceOf(v, WalkPlace(r, l), 0);
    ShiftFor(v, r, l, h);
    UntouchedSame(m, v, AppendInbox(m, r, off), v.Shift(WalkPlace(r, l), InboxPlace(r, l)), h);
  }

  lemma WalkOwn(m: Mem, v: View, r: nat, l: ListId, off: nat)
    requires Walking(m, v, Receiver(r), l, off)
    requires v.At(WalkPlace(r, l)) != [] && v.At(WalkPlace(r, l))[0] == off
    requires Chain(m.blocks, m.Blk(off).next, v.At(WalkPlace(r, l))[1..])
    ensures PcOk(AppendInbox(m, r, off), v.Shift(WalkPlace(r, l), InboxPlace(r, l)), Receiver(r),
                 TakeWalk(l, m.Blk(off).next))
  {
    hide Chain, View.Shift;
    var m', w := AppendInbox(m, r, off), v.Shift(WalkPlace(r, l), InboxPlace(r, l));
    assert Walking(m', w, Receiver(r), l, m.Blk(off).next);
  }

  function WalkEvent(r: nat, l: ListId): Event {
    if l == NodeRq then ShiftNode(r) else ShiftRq(r)
  }

  lemma WalkDo(a: Abs, r: nat, l: ListId)
    requires a.At(WalkPlace(r, l)) != []
    ensures var e := WalkEvent(r, l);
            Can(a, e) && Do(a, e).view == a.view.Shift(WalkPlace(r, l), InboxPlace(r, l)) && Do(a, e).pay == a.pay
  {
  }

  lemma WalkRefines(c: State, a: Abs, r: nat, l: ListId, off: nat)
    requires Refines(c, a) && a.view.Consistent() && c.PcOf(Receiver(r)) == TakeWalk(l, off) && off != END
    ensures Can(a, WalkEvent(r, l))
    ensures Refines(State(AppendInbox(c.mem, r, off), c.pcs[Receiver(r) := TakeWalk(l, c.mem.Blk(off).next)]),
                    Do(a, WalkEvent(r, l)))
  {
    hide MemOk, PayOk, Untouched, Chain, View.Consistent, Can, Do, WalkEvent;
    var m, v, g := c.mem, a.view, Receiver(r);
    var p, q := WalkPlace(r, l), InboxPlace(r, l);
    assert PcOk(m, v, g, c.PcOf(g));
    AppendInboxMem(m, v, r, off, p, q);
    WalkDo(a, r, l);
    var m', w, pc := AppendInbox(m, r, off), v.Shift(p, q), TakeWalk(l, m.Blk(off).next);
    PaySame(m, m', a.pay);
    WalkOwn(m, v, r, l, off);
    forall h | h != g ensures Untouched(m, v, m', w, h) {
      WalkFrame(m, v, r, l, off, h);
    }
    hide PcOk;
    Assemble(c, a, State(m', c.pcs[g := pc]), Do(a, WalkEvent(r, l)), g);
  }

  function DeliverPlace(v: View, r: nat): Place {
    if v.At(InboxNode(r)) != [] then InboxNode(r) else InboxRq(r)
  }

  lemma DeliverFrame(m: Mem, v: View, r: nat, h: Agent)
    requires NoWalk(v, Receiver(r)) && v.Consistent() && v.At(DeliverPlace(v, r)) != []
    ensures var m', w := PopInbox(m, r), v.PopBack(DeliverPlace(v, r), Held);
            && (h != Receiver(r) ==> Untouched(m, v, m', w, h))
            && PcOk(m', w, Receiver(r), Idle)
  {
    hide View.Consistent;
    PlaceOf(v, DeliverPlace(v, r), |v.At(DeliverPlace(v, r))| - 1);
    if h != Receiver(r) {
      UntouchedSame(m, v, PopInbox(m, r), v.PopBack(DeliverPlace(v, r), Held), h);
    }
  }

  function DeliverEvent(v: View, r: nat): Event {
    if v.At(InboxNode(r)) != [] then DeliverNode(r) else DeliverRq(r)
  }

  lemma DeliverDo(a: Abs, r: nat)
    requires NoWalk(a.view, Receiver(r)) && a.At(DeliverPlace(a.view, r)) != []
    ensures var e := DeliverEvent(a.view, r);
            Can(a, e) && Do(a, e).view == a.view.PopBack(DeliverPlace(a.view, r), Held) && Do(a, e).pay == a.pay
  {
  }

  lemma DeliverRefines(c: State, a: Abs, r: nat)
    requires Refines(c, a) && a.view.Consistent() && c.PcOf(Receiver(r)) == Idle && c.mem.Inbox(r) != []
    ensures Can(a, DeliverEvent(a.view, r))
    ensures Refines(c.(mem := PopInbox(c.mem, r)), Do(a, DeliverEvent(a.view, r)))
  {
    hide MemOk, PayOk, Untouched, View.Consistent, Can, Do, DeliverEvent;
    var m, v, g := c.mem, a.view, Receiver(r);
    assert PcOk(m, v, g, c.PcOf(g));
    var p := DeliverPlace(v, r);
    PopInboxMem(m, v, r, p);
    DeliverDo(a, r);
    var m', w := PopInbox(m, r), v.PopBack(p, Held);
    PaySame(m, m', a.pay);
    DeliverFrame(m, v, r, g);
    forall h | h != g ensures Untouched(m, v, m', w, h) {
      DeliverFrame(m, v, r, h);
    }
    hide PcOk;
    Assemble(c, a, c.(mem := m'), Do(a, DeliverEvent(v, r)), g);
  }

  lemma FreedList(m: Mem, v: View, o: nat)
    requires MemOk(m, v) && v.Consistent() && o in m.loose
    ensures o in m.blocks && o in v.place && v.place[o] == m.loose[o] && !Ordered(v.place[o])
    ensures Valid(FreeList(m.Blk(o))) && m.heap != NIL
  {
    hide HeapOk, ListOk, CacheOk, InboxOk, ClassOf, Cut;
    assert LooseOk(m, v, o);
    assert BlockOk(m.blocks[o], v.place[o]);
    if m.heap == NIL {
      UnpublishedEmpty(m, v);
    }
  }

  lemma FreeRefines(c: State, a: Abs, r: nat, o: nat)
    requires Refines(c, a) && a.view.Consistent() && Enabled(c, Free(r, o))
    ensures Can(a, BeginFree(r, o)) && Refines(Apply(c, Free(r, o)), Do(a, BeginFree(r, o)))
  {
    hide MemOk, PayOk, Untouched, FreeList, View.Consistent, Ordered;
    var m, v, g := c.mem, a.view, Receiver(r);
    assert PcOk(m, v, g, c.PcOf(g));
    FreedList(m, v, o);
    LoosenMem(m, v, o, Hand(g));
    var m', w := m.(loose := m.loose[o := Hand(g)]), v.Put(o, Hand(g));
    PaySame(m, m', a.pay);
    forall h | h != g ensures Untouched(m, v, m', w, h) {
      UntouchedSame(m, v, m', w, h);
    }
    var pc := PushLoad(o, FreeList(m.Blk(o)));
    assert PcOk(m', w, g, pc);
    hide PcOk;
    Assemble(c, a, State(m', c.pcs[g := pc]), Do(a, BeginFree(r, o)), g);
  }

  /** The event of one atomic access of `g`. */
  function StepEvent(m: Mem, g: Agent, pc: Pc, spurious: bool): Event {
    match pc
    case AllocTake(b) => TakeFreed(g.Index(), b)
    case AllocPop(b) => AllocCached(g.Index(), b)
    case AllocCas(b, off) =>
      if off + Stride(Cut(b)) <= m.limit && m.heap == off && !spurious then CutNew(g.Index(), m.heap) else Nop
    case PushCas(o, l, prev) => if m.Head(l) == prev && !spurious then PushEvent(g, o, l) else Nop
    case TakeExchange(l) => TakeEvent(g.Index(), l)
    case TakeWalk(l, off) => if off == END then Nop else WalkEvent(g.Index(), l)
    case _ => Nop
  }

  function EventOf(c: State, a: Abs, act: Action): Event {
    match act
    case Alloc(i, size) =>
      if ClassOf(size) < RET_BINS && c.mem.Cache(i, ClassOf(size)) != END then AllocCached(i, ClassOf(size)) else Nop
    case Fill(i, o, msg) => Write(o, msg)
    case Scribble(o, msg) => Write(o, msg)
    case Free(r, o) => BeginFree(r, o)
    case Deliver(r) => DeliverEvent(a.view, r)
    case Step(g, spurious) => StepEvent(c.mem, g, c.PcOf(g), spurious)
    case _ => Nop
  }

  ghost predicate Simulates(c: State, a: Abs, e: Event, c': State) {
    Can(a, e) && Refines(c', Do(a, e))
  }

  /** At the end of a walk the list taken is empty. */
  lemma WalkEnds(m: Mem, v: View, g: Agent, l: ListId)
    requires MemOk(m, v) && Walking(m, v, g, l, END)
    ensures PcOk(m, v, g, AfterTake(l))
  {
    hide BlocksOk, ListOk, CacheOk, InboxOk, LooseOk, HeapOk, Chain;
    ChainEmpty(m.blocks, m, END, v.At(WalkPlace(g.rank, l)));
  }

  ghost predicate Allocates(pc: Pc) {
    pc.AllocCheck? || pc.AllocTake? || pc.AllocPop? || pc.AllocLoad? || pc.AllocCas?
  }

  ghost predicate Pushes(pc: Pc) {
    pc.PushLoad? || pc.PushLink? || pc.PushCas?
  }

  ghost predicate Takes(pc: Pc) {
    pc.TakeLoad? || pc.TakeExchange? || pc.TakeWalk?
  }

  lemma AllocStepSimulates(c: State, a: Abs, g: Agent, spurious: bool)
    requires Refines(c, a) && a.view.Consistent() && Allocates(c.PcOf(g))
    ensures Simulates(c, a, StepEvent(c.mem, g, c.PcOf(g), spurious), Apply(c, Step(g, spurious)))
  {
    hide MemOk, PayOk, Pushing, Chain, View.Consistent, PushEvent, TakeEvent, WalkEvent, Cut, Stride;
    hide PopCache, CutBlock, TakeReturned, SetNext, PushHead, TakeHead, AppendInbox;
    var m, v := c.mem, a.view;
    assert PcOk(m, v, g, c.PcOf(g));
    match c.PcOf(g)
    case AllocCheck(b) => PcOnly(c, a, g, if m.heap == NIL then Idle else AllocTake(b));
    case AllocTake(b) => TakeReturnedRefines(c, a, g.host, b);
    case AllocPop(b) => PopCacheRefines(c, a, g.host, b);
    case AllocLoad(b) => PcOnly(c, a, g, AllocCas(b, m.heap));
    case AllocCas(b, off) =>
      if off + Stride(Cut(b)) > m.limit {
        PcOnly(c, a, g, Idle);
      } else if m.heap == off && !spurious {
        CutRefines(c, a, g.host, b);
      } else {
        PcOnly(c, a, g, AllocCas(b, m.heap));
      }
  }

  lemma PushSimulates(c: State, a: Abs, g: Agent, spurious: bool)
    requires Refines(c, a) && a.view.Consistent() && Pushes(c.PcOf(g))
    ensures Simulates(c, a, StepEvent(c.mem, g, c.PcOf(g), spurious), Apply(c, Step(g, spurious)))
  {
    hide MemOk, PayOk, Pushing, Chain, View.Consistent, PushEvent, TakeEvent, WalkEvent, Cut, Stride;
    hide PopCache, CutBlock, TakeReturned, SetNext, PushHead, TakeHead, AppendInbox;
    var m, v := c.mem, a.view;
    assert PcOk(m, v, g, c.PcOf(g));
    match c.PcOf(g)
    case PushLoad(o, l) => PcOnly(c, a, g, PushLink(o, l, m.Head(l)));
    case PushLink(o, l, prev) => SetNextRefines(c, a, g, o, l, prev);
    case PushCas(o, l, prev) =>
      if m.Head(l) == prev && !spurious {
        PushHeadRefines(c, a, g, o, l, prev);
      } else {
        PcOnly(c, a, g, PushLink(o, l, m.Head(l)));
      }
  }

  lemma TakeSimulates(c: State, a: Abs, g: Agent, spurious: bool)
    requires Refines(c, a) && a.view.Consistent() && Takes(c.PcOf(g))
    ensures Simulates(c, a, StepEvent(c.mem, g, c.PcOf(g), spurious), Apply(c, Step(g, spurious)))
  {
    hide MemOk, PayOk, Pushing, Chain, View.Consistent, PushEvent, TakeEvent, WalkEvent, Cut, Stride;
    hide PopCache, CutBlock, TakeReturned, SetNext, PushHead, TakeHead, AppendInbox;
    var m, v := c.mem, a.view;
    assert PcOk(m, v, g, c.PcOf(g));
    match c.PcOf(g)
    case TakeLoad(l) => PcOnly(c, a, g, if m.Head(l) == END then AfterTake(l) else TakeExchange(l));
    case TakeExchange(l) => TakeHeadRefines(c, a, g.rank, l);
    case TakeWalk(l, off) =>
      if off == END {
        WalkEnds(m, v, g, l);
        PcOnly(c, a, g, AfterTake(l));
      } else {
        WalkRefines(c, a, g.rank, l, off);
      }
  }

  lemma StepSimulates(c: State, a: Abs, g: Agent, spurious: bool)
    requires Refines(c, a) && a.view.Consistent() && c.PcOf(g) != Idle
    ensures Simulates(c, a, StepEvent(c.mem, g, c.PcOf(g), spurious), Apply(c, Step(g, spurious)))
  {
    hide Refines, View.Consistent, Simulates, StepEvent, Apply;
    if Allocates(c.PcOf(g)) {
      AllocStepSimulates(c, a, g, spurious);
    } else if Pushes(c.PcOf(g)) {
      PushSimulates(c, a, g, spurious);
    } else {
      TakeSimulates(c, a, g, spurious);
    }
  }

  lemma SamePcs(c: State, c': State, a: Abs)
    requires Refines(c, a) && c'.mem == c.mem && forall g :: c'.PcOf(g) == c.PcOf(g)
    ensures Refines(c', a)
  {
    hide MemOk, PayOk, PcOk;
  }

  lemma AllocSimulates(c: State, a: Abs, i: nat, size: nat)
    requires Refines(c, a) && a.view.Consistent() && Enabled(c, Alloc(i, size))
    ensures Simulates(c, a, EventOf(c, a, Alloc(i, size)), Apply(c, Alloc(i, size)))
  {
    hide MemOk, PayOk, View.Consistent, PopCache, Refines, Cut, Stride;
    var b := ClassOf(size);
    hide ClassOf;
    if b < RET_BINS {
      if c.mem.Cache(i, b) != END {
        PopCacheRefines(c, a, i, b);
        SamePcs(State(PopCache(c.mem, i, b), c.pcs[Sender(i) := Idle]), Apply(c, Alloc(i, size)),
                Do(a, AllocCached(i, b)));
      } else {
        assert PcOk(c.mem, a.view, Sender(i), AllocCheck(b));
        PcOnly(c, a, Sender(i), AllocCheck(b));
      }
    }
  }

  lemma SendPc(m: Mem, a: Abs, i: nat, o: nat)
    requires MemOk(m, a.view) && a.view.Consistent() && m.IsLoose(o, Hand(Sender(i)))
    requires Valid(ListOf(m.Blk(o).msg.dest))
    ensures PcOk(m, a.view, Sender(i), PushLoad(o, ListOf(m.Blk(o).msg.dest)))
  {
    hide MemOk;
    FreedList(m, a.view, o);
  }

  lemma SetupSimulates(c: State, a: Abs, act: Action)
    requires Refines(c, a) && a.view.Consistent() && Enabled(c, act) && (act.InitList? || act.Publish?)
    ensures Simulates(c, a, Nop, Apply(c, act))
  {
    hide MemOk, PayOk, PcOk, View.Consistent, Untouched;
    var c', g := Apply(c, act), Sender(0);
    if act.InitList? {
      InitListMem(c.mem, a.view, act.list);
    } else {
      PublishMem(c.mem, a.view);
    }
    PaySame(c.mem, c'.mem, a.pay);
    forall h ensures Untouched(c.mem, a.view, c'.mem, a.view, h) {
      SetupUntouched(c.mem, a.view, c'.mem, h);
    }
    assert PcOk(c.mem, a.view, g, c.PcOf(g));
    PcStable(c.mem, a.view, c'.mem, a.view, g, c.PcOf(g));
    Assemble(c, a, c', a, g);
  }

  lemma SetupUntouched(m: Mem, v: View, m': Mem, h: Agent)
    requires m'.blocks == m.blocks && m'.cache == m.cache && (m.heap != NIL ==> m'.heap != NIL)
    ensures Untouched(m, v, m', v, h)
  {
  }

  /** Every action of the pool, from any state that refines an abstract pool, is
      an event of that abstract pool and ends in a state that refines it again. */
  lemma ActionSimulates(c: State, a: Abs, act: Action)
    requires Refines(c, a) && a.view.Consistent() && Enabled(c, act)
    ensures Simulates(c, a, EventOf(c, a, act), Apply(c, act))
  {
    hide MemOk, PayOk, View.Consistent, StepAgent, StepEvent, DeliverEvent, PopInbox, SetMsg, PcOk;
    match act
    case InitList(l) => SetupSimulates(c, a, act);
    case Publish => SetupSimulates(c, a, act);
    case Alloc(i, size) => AllocSimulates(c, a, i, size);
    case Fill(i, o, msg) => SetMsgRefines(c, a, o, msg, Sender(i));
    case Send(i, o) =>
      SendPc(c.mem, a, i, o);
      PcOnly(c, a, Sender(i), PushLoad(o, ListOf(c.mem.Blk(o).msg.dest)));
    case Scribble(o, msg) => ScribbleRefines(c, a, o, msg);
    case Free(r, o) => FreeRefines(c, a, r, o);
    case Poll(r) => PollPc(c, a, r); PcOnly(c, a, Receiver(r), TakeLoad(Rq(r)));
    case Deliver(r) => DeliverRefines(c, a, r);
    case Step(g, spurious) => StepSimulates(c, a, g, spurious);
  }

  lemma PollPc(c: State, a: Abs, r: nat)
    requires Refines(c, a) && Enabled(c, Poll(r))
    ensures PcOk(c.mem, a.view, Receiver(r), TakeLoad(Rq(r)))
  {
    hide HeapOk, BlocksOk, ListOk, CacheOk, LooseOk;
    assert InboxOk(c.mem, a.view, r) && PcOk(c.mem, a.view, Receiver(r), c.PcOf(Receiver(r)));
  }

  /** Using a delivered message disturbs nobody. */
  lemma ScribbleRefines(c: State, a: Abs, o: nat, msg: Msg)
    requires Refines(c, a) && a.view.Consistent() && c.mem.IsLoose(o, Held)
    ensures Simulates(c, a, Write(o, msg), c.(mem := SetMsg(c.mem, o, msg)))
  {
    hide HeapOk, BlocksOk, ListOk, CacheOk, InboxOk, PcOk, Untouched, View.Consistent;
    var m, v, g := c.mem, a.view, Sender(0);
    assert LooseOk(m, v, o);
    var m', a' := SetMsg(m, o, msg), Do(a, Write(o, msg));
    LooseBlock(m, v, o);
    Rewrite(m, v, o, m.Blk(o).(msg := msg));
    forall h ensures Untouched(m, v, m', v, h) {
      RewriteUntouched(m, v, o, m.Blk(o).(msg := msg), h);
    }
    assert PcOk(m, v, g, c.PcOf(g));
    PcStable(m, v, m', v, g, c.PcOf(g));
    Assemble(c, a, c.(mem := m'), a', g);
  }
}
