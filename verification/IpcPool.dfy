/** The block pool of src/cmishmem.cpp, for one segment, as a state machine whose
    steps are the atomic accesses of the PEs. Every segment has its own lists,
    heap and blocks, and no step touches two segments, so one segment with any
    number of sending and receiving PEs is the general case. */
module IpcPool {
  import opened SizeClasses
  import opened IpcPlaces
  import opened IpcAbstract

  const NIL: nat := 0
  const END: nat := 0xFFFF_FFFF_FFFF_FFFF
  const ALIGN: nat := 16
  const BLOCK_HEADER: nat := 48
  const RANKS: nat := 512
  const HOST_PES: nat := 1024
  const RET_BINS: nat := 16

  /** sizeof(ipc_shared_): two words and the node queue on a cache line each, one
      line per rank, two lines of return lists per host PE. */
  const SHARED_HEADER: nat := 64 + 64 + 64 * RANKS + 128 * HOST_PES

  /** segmentBegin_ */
  const BEGIN: nat := SHARED_HEADER + SHARED_HEADER % ALIGN

  function Stride(size: nat): nat {
    var s := BLOCK_HEADER + size;
    s + (ALIGN - s % ALIGN) % ALIGN
  }

  /** A block's header; its offset (`orig`) is its key. */
  datatype Block = Block(size: nat, owner: nat, next: nat, msg: Msg)

  predicate Valid(l: ListId) {
    match l
    case Rq(r) => r < RANKS
    case NodeRq => true
    case Ret(i, b) => i < HOST_PES && b < RET_BINS
  }

  /** What a PE does next. AllocCheck..AllocCas are the accesses of
      CmiAllocIpcBlock, PushLoad..PushCas those of pushList_, TakeLoad..TakeWalk
      those of takeList_ inside refillInbox_. */
  datatype Pc =
    | Idle
    | AllocCheck(bin: nat)
    | AllocTake(bin: nat)
    | AllocPop(bin: nat)
    | AllocLoad(bin: nat)
    | AllocCas(bin: nat, off: nat)
    | PushLoad(o: nat, list: ListId)
    | PushLink(o: nat, list: ListId, prev: nat)
    | PushCas(o: nat, list: ListId, prev: nat)
    | TakeLoad(list: ListId)
    | TakeExchange(list: ListId)
    | TakeWalk(list: ListId, off: nat)

  /** The memory of the segment and of the PEs' private lists. `loose` records the
      blocks whose address some program variable holds: in the hand of one PE, or
      with the receiving process. Memory not yet written is zero, the state in
      which a peer maps a segment. */
  datatype Mem = Mem(
    heap: nat,
    limit: nat,
    heads: map<ListId, nat>,
    blocks: map<nat, Block>,
    cache: map<(nat, nat), nat>,
    inbox: map<nat, seq<nat>>,
    loose: map<nat, Place>)
  {
    function Head(l: ListId): nat { if l in heads then heads[l] else 0 }
    function Blk(o: nat): Block { if o in blocks then blocks[o] else Block(0, 0, NIL, NO_MSG) }
    function Cache(i: nat, b: nat): nat { if (i, b) in cache then cache[(i, b)] else END }
    function Inbox(r: nat): seq<nat> { if r in inbox then inbox[r] else [] }
    predicate IsLoose(o: nat, p: Place) { o in loose && loose[o] == p }
  }

  datatype State = State(mem: Mem, pcs: map<Agent, Pc>) {
    function PcOf(g: Agent): Pc { if g in pcs then pcs[g] else Idle }
  }

  function Start(limit: nat): State {
    State(Mem(NIL, limit, map[], map[], map[], map[], map[]), map[])
  }

  /** InitList and Publish are the owner's constructor. Alloc, Send, Free, Poll and
      Deliver begin an operation of an idle PE; Step performs the next atomic
      access of a busy one (`spurious`: a weak compare-and-swap that fails without
      cause). Fill is a sender writing its message, Scribble a receiver using a
      delivered one. */
  datatype Action =
    | InitList(list: ListId)
    | Publish
    | Alloc(host: nat, size: nat)
    | Fill(host: nat, o: nat, m: Msg)
    | Send(host: nat, o: nat)
    | Scribble(o: nat, m: Msg)
    | Free(rank: nat, o: nat)
    | Poll(rank: nat)
    | Deliver(rank: nat)
    | Step(agent: Agent, spurious: bool)

  ghost predicate Enabled(c: State, act: Action) {
    var m := c.mem;
    match act
    case InitList(l) => m.heap == NIL && Valid(l)
    case Publish => m.heap == NIL && forall l :: Valid(l) ==> m.Head(l) == END
    case Alloc(i, size) => i < HOST_PES && c.PcOf(Sender(i)) == Idle
    case Fill(i, o, msg) => c.PcOf(Sender(i)) == Idle && m.IsLoose(o, Hand(Sender(i))) && msg.from == i
    case Send(i, o) =>
      && c.PcOf(Sender(i)) == Idle && m.IsLoose(o, Hand(Sender(i)))
      && Valid(ListOf(m.Blk(o).msg.dest)) && m.Blk(o).msg.from == i
    case Scribble(o, msg) => m.IsLoose(o, Held)
    case Free(r, o) => c.PcOf(Receiver(r)) == Idle && m.IsLoose(o, Held)
    case Poll(r) =>
      // a rank polls only after its own process built the segment (metadataReady_)
      r < RANKS && c.PcOf(Receiver(r)) == Idle && m.heap != NIL && m.Inbox(r) == []
    case Deliver(r) => c.PcOf(Receiver(r)) == Idle && m.Inbox(r) != []
    case Step(g, spurious) => c.PcOf(g) != Idle
  }

  function SetMsg(m: Mem, o: nat, msg: Msg): Mem {
    m.(blocks := m.blocks[o := m.Blk(o).(msg := msg)])
  }

  function SetNext(m: Mem, o: nat, next: nat): Mem {
    m.(blocks := m.blocks[o := m.Blk(o).(next := next)])
  }

  /** The first block of a private list goes into its owner's hand. */
  function PopCache(m: Mem, i: nat, b: nat): Mem {
    var o := m.Cache(i, b);
    m.(cache := m.cache[(i, b) := m.Blk(o).next],
       blocks := m.blocks[o := m.Blk(o).(owner := i)],
       loose := m.loose[o := Hand(Sender(i))])
  }

  /** The exchange that takes a sender's whole return list. */
  function TakeReturned(m: Mem, i: nat, b: nat): Mem {
    m.(heads := m.heads[Ret(i, b) := END], cache := m.cache[(i, b) := m.Head(Ret(i, b))])
  }

  function CutBlock(m: Mem, i: nat, b: nat): Mem {
    m.(heap := m.heap + Stride(Cut(b)),
       blocks := m.blocks[m.heap := Block(Cut(b), i, NIL, NO_MSG)],
       loose := m.loose[m.heap := Hand(Sender(i))])
  }

  /** The compare-and-swap that makes `o` the head of `l`. */
  function PushHead(m: Mem, o: nat, l: ListId): Mem {
    m.(heads := m.heads[l := o], loose := m.loose - {o})
  }

  function TakeHead(m: Mem, l: ListId): Mem {
    m.(heads := m.heads[l := END])
  }

  function AppendInbox(m: Mem, r: nat, o: nat): Mem {
    m.(inbox := m.inbox[r := m.Inbox(r) + [o]])
  }

  function PopInbox(m: Mem, r: nat): Mem {
    var box := m.Inbox(r);
    if box == [] then m
    else m.(inbox := m.inbox[r := box[..|box| - 1]], loose := m.loose[Last(box) := Held])
  }

  /** The list a free pushes to: the owner's, for the block's size. */
  function FreeList(k: Block): ListId {
    Ret(k.owner, ClassOf(k.size))
  }

  /** refillInbox_ takes the rank's own queue, then the node queue. */
  function AfterTake(l: ListId): Pc {
    if l == NodeRq then Idle else TakeLoad(NodeRq)
  }

  /** One atomic access of PE `g`, which is at `pc`. */
  function StepAgent(m: Mem, g: Agent, pc: Pc, spurious: bool): (Mem, Pc) {
    match pc
    case Idle => (m, Idle)
    case AllocCheck(b) => (m, if m.heap == NIL then Idle else AllocTake(b))
    case AllocTake(b) =>
      (TakeReturned(m, g.Index(), b), if m.Head(Ret(g.Index(), b)) == END then AllocLoad(b) else AllocPop(b))
    case AllocPop(b) => (PopCache(m, g.Index(), b), Idle)
    case AllocLoad(b) => (m, AllocCas(b, m.heap))
    case AllocCas(b, off) =>
      if off + Stride(Cut(b)) > m.limit then (m, Idle)
      else if m.heap == off && !spurious then (CutBlock(m, g.Index(), b), Idle)
      else (m, AllocCas(b, m.heap))
    case PushLoad(o, l) => (m, PushLink(o, l, m.Head(l)))
    case PushLink(o, l, prev) => (SetNext(m, o, prev), PushCas(o, l, prev))
    case PushCas(o, l, prev) =>
      if m.Head(l) == prev && !spurious then (PushHead(m, o, l), Idle) else (m, PushLink(o, l, m.Head(l)))
    case TakeLoad(l) => (m, if m.Head(l) == END then AfterTake(l) else TakeExchange(l))
    case TakeExchange(l) => (TakeHead(m, l), TakeWalk(l, m.Head(l)))
    case TakeWalk(l, off) =>
      if off == END then (m, AfterTake(l))
      else (AppendInbox(m, g.Index(), off), TakeWalk(l, m.Blk(off).next))
  }

  function Apply(c: State, act: Action): State {
    var m := c.mem;
    match act
    case InitList(l) => c.(mem := TakeHead(m, l))
    case Publish => c.(mem := m.(heap := BEGIN))
    case Alloc(i, size) =>
      var b := ClassOf(size);
      if b >= RET_BINS then c
      else if m.Cache(i, b) != END then c.(mem := PopCache(m, i, b))
      else c.(pcs := c.pcs[Sender(i) := AllocCheck(b)])
    case Fill(i, o, msg) => c.(mem := SetMsg(m, o, msg))
    case Send(i, o) => c.(pcs := c.pcs[Sender(i) := PushLoad(o, ListOf(m.Blk(o).msg.dest))])
    case Scribble(o, msg) => c.(mem := SetMsg(m, o, msg))
    case Free(r, o) =>
      State(m.(loose := m.loose[o := Hand(Receiver(r))]),
            c.pcs[Receiver(r) := PushLoad(o, FreeList(m.Blk(o)))])
    case Poll(r) => c.(pcs := c.pcs[Receiver(r) := TakeLoad(Rq(r))])
    case Deliver(r) => c.(mem := PopInbox(m, r))
    case Step(g, spurious) =>
      var (m', pc) := StepAgent(m, g, c.PcOf(g), spurious);
      State(m', c.pcs[g := pc])
  }

  // ----- refinement

  function NextOf(s: seq<nat>, k: nat): nat {
    if k + 1 < |s| then s[k + 1] else END
  }

  /** The offsets linked from `h` are exactly `s`, so the chain is acyclic. */
  ghost predicate Chain(blocks: map<nat, Block>, h: nat, s: seq<nat>) {
    && h == (if s == [] then END else s[0])
    && (forall k :: 0 <= k < |s| ==> s[k] in blocks && blocks[s[k]].next == NextOf(s, k))
  }

  /** Block `o` lies in the used part of the segment, at an aligned offset. */
  ghost predicate InSegment(m: Mem, o: nat)
    requires o in m.blocks
  {
    BEGIN <= o && o % ALIGN == 0 && o + Stride(m.blocks[o].size) <= m.heap
  }

  ghost predicate HeapOk(m: Mem) {
    && BEGIN <= m.limit < END
    && (m.heap == NIL ==> m.blocks == map[])
    && (m.heap != NIL ==> BEGIN <= m.heap <= m.limit && m.heap % ALIGN == 0)
    && (forall o :: o in m.blocks ==> InSegment(m, o))
    && (forall o, p :: o in m.blocks && p in m.blocks && o < p ==> o + Stride(m.blocks[o].size) <= p)
  }

  ghost predicate BlockOk(k: Block, p: Place) {
    && k.owner < HOST_PES && ClassOf(k.size) < RET_BINS && k.size == Cut(ClassOf(k.size))
    && (p.OnList? && p.list.Ret? ==> p.list == FreeList(k))
    && (p.Cached? ==> p == Cached(k.owner, ClassOf(k.size)))
  }

  ghost predicate BlocksOk(m: Mem, v: View) {
    && m.blocks.Keys == v.place.Keys
    && (forall o :: o in m.blocks ==> BlockOk(m.blocks[o], v.place[o]))
  }

  ghost predicate ListOk(m: Mem, v: View, l: ListId) {
    Valid(l) && m.heap != NIL ==> Chain(m.blocks, m.Head(l), v.At(OnList(l)))
  }

  ghost predicate CacheOk(m: Mem, v: View, i: nat, b: nat) {
    Chain(m.blocks, m.Cache(i, b), v.At(Cached(i, b)))
  }

  ghost predicate InboxOk(m: Mem, v: View, r: nat) {
    m.Inbox(r) == v.At(InboxRq(r)) + v.At(InboxNode(r))
  }

  ghost predicate LooseOk(m: Mem, v: View, o: nat) {
    && (o in m.loose ==> o in v.place && v.place[o] == m.loose[o] && !Ordered(m.loose[o]))
    && (o in v.place && !Ordered(v.place[o]) ==> o in m.loose)
  }

  ghost predicate MemOk(m: Mem, v: View) {
    && HeapOk(m) && BlocksOk(m, v)
    && (forall l :: ListOk(m, v, l))
    && (forall i, b :: CacheOk(m, v, i, b))
    && (forall r :: InboxOk(m, v, r))
    && (forall o :: LooseOk(m, v, o))
  }

  ghost predicate NoWalk(v: View, g: Agent) {
    g.Receiver? ==> v.At(WalkRq(g.rank)) == [] && v.At(WalkNode(g.rank)) == []
  }

  ghost predicate Allocating(m: Mem, g: Agent, b: nat) {
    g.Sender? && g.host < HOST_PES && b < RET_BINS
  }

  ghost predicate Pushing(m: Mem, v: View, g: Agent, o: nat, l: ListId) {
    && m.heap != NIL && NoWalk(v, g) && Valid(l)
    && o in v.place && v.place[o] == Hand(g)
    && l == (if g.Sender? then ListOf(m.Blk(o).msg.dest) else FreeList(m.Blk(o)))
  }

  ghost predicate Taking(m: Mem, v: View, g: Agent, l: ListId) {
    && m.heap != NIL && g.Receiver? && Valid(l) && NoWalk(v, g)
    && (l == Rq(g.rank) || l == NodeRq)
    && v.At(InboxNode(g.rank)) == []
    && (l == Rq(g.rank) ==> v.At(InboxRq(g.rank)) == [])
  }

  ghost predicate Walking(m: Mem, v: View, g: Agent, l: ListId, off: nat) {
    && m.heap != NIL && g.Receiver?
    && (l == Rq(g.rank) || l == NodeRq)
    && Chain(m.blocks, off, v.At(if l == NodeRq then WalkNode(g.rank) else WalkRq(g.rank)))
    && (l == NodeRq ==> v.At(WalkRq(g.rank)) == [])
    && (l != NodeRq ==> v.At(WalkNode(g.rank)) == [] && v.At(InboxNode(g.rank)) == [])
  }

  /** What a PE relies on at each point of its program. */
  ghost predicate PcOk(m: Mem, v: View, g: Agent, pc: Pc) {
    match pc
    case Idle => NoWalk(v, g)
    case AllocCheck(b) => Allocating(m, g, b) && m.Cache(g.Index(), b) == END
    case AllocTake(b) => Allocating(m, g, b) && m.Cache(g.Index(), b) == END && m.heap != NIL
    case AllocPop(b) => Allocating(m, g, b) && m.Cache(g.Index(), b) != END && m.heap != NIL
    case AllocLoad(b) => Allocating(m, g, b) && m.heap != NIL
    case AllocCas(b, off) => Allocating(m, g, b) && m.heap != NIL
    case PushLoad(o, l) => Pushing(m, v, g, o, l)
    case PushLink(o, l, prev) => Pushing(m, v, g, o, l)
    case PushCas(o, l, prev) => Pushing(m, v, g, o, l) && m.Blk(o).next == prev
    case TakeLoad(l) => Taking(m, v, g, l)
    case TakeExchange(l) => Taking(m, v, g, l)
    case TakeWalk(l, off) => Walking(m, v, g, l, off)
  }

  /** The messages in the blocks are those of the abstract pool. */
  ghost predicate PayOk(m: Mem, pay: map<nat, Msg>) {
    && pay.Keys <= m.blocks.Keys
    && (forall o :: o in m.blocks ==> m.blocks[o].msg == PayOf(pay, o))
  }

  ghost predicate Refines(c: State, a: Abs) {
    && MemOk(c.mem, a.view) && PayOk(c.mem, a.pay)
    && (forall g :: PcOk(c.mem, a.view, g, c.PcOf(g)))
  }
}
