/** What each operation of the shared-memory pool achieves: an allocation finds a
    block whenever there is one, a push links its block in, a poll takes both queues
    whole, and what a PE that races with others may rely on. */
module IpcProgress {
  import opened SizeClasses
  import opened IpcPlaces
  import opened IpcAbstract
  import opened IpcPool
  import opened IpcRefinement
  import opened IpcSafety

  /** `n` steps of one PE, with no other in between. */
  function Solo(g: Agent, n: nat): seq<Action> {
    if n == 0 then [] else Solo(g, n - 1) + [Step(g, false)]
  }

  lemma Extend(limit: nat, acts: seq<Action>, act: Action)
    requires IsRun(limit, acts) && Enabled(After(limit, acts), act)
    ensures IsRun(limit, acts + [act]) && After(limit, acts + [act]) == Apply(After(limit, acts), act)
    ensures forall l :: Pushed(limit, acts + [act], l) == Pushed(limit, acts, l) + PushedBy(After(limit, acts), act, l)
    ensures forall r: nat, d :: Received(limit, acts + [act], r, d) ==
                                Received(limit, acts, r, d) + ReceivedBy(After(limit, acts), act, r, d)
  {
    hide Enabled, Apply, PushedBy, ReceivedBy;
    assert (acts + [act])[..|acts|] == acts;
  }

  /** One more step of `g`. */
  lemma SoloStep(limit: nat, acts: seq<Action>, g: Agent, n: nat)
    requires IsRun(limit, acts + Solo(g, n)) && After(limit, acts + Solo(g, n)).PcOf(g) != Idle
    ensures var c := After(limit, acts + Solo(g, n));
            var (m', pc) := StepAgent(c.mem, g, c.PcOf(g), false);
            && IsRun(limit, acts + Solo(g, n + 1))
            && After(limit, acts + Solo(g, n + 1)) == State(m', c.pcs[g := pc])
  {
    hide IsRun, After, StepAgent;
    var run := acts + Solo(g, n);
    Extend(limit, run, Step(g, false));
    assert acts + Solo(g, n + 1) == run + [Step(g, false)];
  }

  // ----- allocation

  /** The block an allocation of class `b` should return: from the PE's own list,
      else from its return list, else a new one. */
  function Source(m: Mem, i: nat, b: nat): nat {
    if m.Cache(i, b) != END then m.Cache(i, b)
    else if m.Head(Ret(i, b)) != END then m.Head(Ret(i, b))
    else m.heap
  }

  predicate CanServe(m: Mem, i: nat, b: nat) {
    m.Cache(i, b) != END || m.Head(Ret(i, b)) != END || m.heap + Stride(Cut(b)) <= m.limit
  }

  /** Block `o` has come into PE `i`'s hand. */
  predicate Gained(m: Mem, m': Mem, i: nat, o: nat) {
    m'.IsLoose(o, Hand(Sender(i))) && !m.IsLoose(o, Hand(Sender(i)))
  }

  /** What a lone allocation leaves. */
  function Served(m: Mem, i: nat, b: nat): Mem {
    if m.Cache(i, b) != END then PopCache(m, i, b)
    else
      var m1 := TakeReturned(m, i, b);
      if m.Head(Ret(i, b)) != END then PopCache(m1, i, b)
      else if m.heap + Stride(Cut(b)) <= m.limit then CutBlock(m1, i, b)
      else m1
  }

  lemma ServedGains(m: Mem, i: nat, b: nat)
    requires m.Cache(i, b) != END ==> m.Cache(i, b) !in m.loose
    requires m.Head(Ret(i, b)) != END ==> m.Head(Ret(i, b)) !in m.loose
    requires m.heap !in m.loose
    ensures CanServe(m, i, b) ==> forall o :: Gained(m, Served(m, i, b), i, o) <==> o == Source(m, i, b)
    ensures !CanServe(m, i, b) ==> forall o :: !Gained(m, Served(m, i, b), i, o)
    ensures Served(m, i, b).heap ==
            m.heap + if m.Cache(i, b) == END && m.Head(Ret(i, b)) == END && CanServe(m, i, b) then Stride(Cut(b)) else 0
  {
    hide Stride, Cut;
  }

  lemma ReturnedNotLoose(m: Mem, v: View, i: nat, b: nat)
    requires MemOk(m, v) && v.Consistent() && m.heap != NIL && Valid(Ret(i, b)) && m.Head(Ret(i, b)) != END
    ensures m.Head(Ret(i, b)) !in m.loose
  {
    hide HeapOk, BlocksOk, CacheOk, InboxOk, View.Consistent;
    assert ListOk(m, v, Ret(i, b));
    PlaceOf(v, OnList(Ret(i, b)), 0);
    assert LooseOk(m, v, m.Head(Ret(i, b)));
  }

  /** An allocation with no other PE in between returns a block if and only if the
      PE's own list or its return list has one or the segment has room, in that
      order of preference; the heap moves only if both lists were empty. */
  lemma LoneAlloc(limit: nat, acts: seq<Action>, i: nat, size: nat) returns (n: nat)
    requires BEGIN <= limit < END && IsRun(limit, acts) && After(limit, acts).mem.heap != NIL
    requires i < HOST_PES && After(limit, acts).PcOf(Sender(i)) == Idle && ClassOf(size) < RET_BINS
    ensures var run := acts + [Alloc(i, size)] + Solo(Sender(i), n);
            IsRun(limit, run) && After(limit, run).PcOf(Sender(i)) == Idle
    ensures var m, b := After(limit, acts).mem, ClassOf(size);
            var m' := After(limit, acts + [Alloc(i, size)] + Solo(Sender(i), n)).mem;
            && (CanServe(m, i, b) ==> forall o :: Gained(m, m', i, o) <==> o == Source(m, i, b))
            && (!CanServe(m, i, b) ==> forall o :: !Gained(m, m', i, o))
            && (m'.heap != m.heap <==> m.Cache(i, b) == END && m.Head(Ret(i, b)) == END && CanServe(m, i, b))
  {
    var b, m := ClassOf(size), After(limit, acts).mem;
    n := AllocSteps(limit, acts, i, size);
    hide IsRun, After, ClassOf, Cut, Stride, MemOk, Served, Solo;
    NoAliasing(limit, acts);
    var v := Ownership(limit, acts);
    LimitFixed(limit, acts);
    if m.Head(Ret(i, b)) != END {
      ReturnedNotLoose(m, v, i, b);
    }
    ServedGains(m, i, b);
    StrideAligned(Cut(b));
  }

  lemma AllocSteps(limit: nat, acts: seq<Action>, i: nat, size: nat) returns (n: nat)
    requires IsRun(limit, acts) && After(limit, acts).mem.heap != NIL
    requires i < HOST_PES && After(limit, acts).PcOf(Sender(i)) == Idle && ClassOf(size) < RET_BINS
    ensures var run := acts + [Alloc(i, size)] + Solo(Sender(i), n);
            && IsRun(limit, run) && After(limit, run).PcOf(Sender(i)) == Idle
            && After(limit, run).mem == Served(After(limit, acts).mem, i, ClassOf(size))
  {
    hide IsRun, After, ClassOf, Cut, Stride, PopCache, CutBlock;
    var g, m, b := Sender(i), After(limit, acts).mem, ClassOf(size);
    var a0 := acts + [Alloc(i, size)];
    Extend(limit, acts, Alloc(i, size));
    assert a0 + Solo(g, 0) == a0;
    if m.Cache(i, b) != END {
      n := 0;
    } else {
      SoloStep(limit, a0, g, 0);
      SoloStep(limit, a0, g, 1);
      SoloStep(limit, a0, g, 2);
      n := 3;
      if m.Head(Ret(i, b)) == END {
        SoloStep(limit, a0, g, 3);
        n := 4;
      }
    }
  }

  // ----- allocation among racing PEs

  /** Since PE `i`'s latest call there was a moment when its own list and its return
      list for the size asked for were both empty. */
  ghost predicate SawEmpty(limit: nat, acts: seq<Action>, i: nat) {
    acts != [] &&
    var n, act := |acts| - 1, acts[|acts| - 1];
    !(act.Alloc? && act.host == i) &&
    (EmptyFor(After(limit, acts[..n]).mem, i, ClassOf(Want(acts[..n], i))) || SawEmpty(limit, acts[..n], i))
  }

  predicate EmptyFor(m: Mem, i: nat, b: nat) {
    m.Cache(i, b) == END && m.Head(Ret(i, b)) == END
  }

  /** The points of an allocation at which both lists have been looked at. */
  predicate Looked(pc: Pc) {
    pc.AllocLoad? || pc.AllocCas?
  }

  lemma StepLooked(m: Mem, g: Agent, pc: Pc, spurious: bool)
    requires Looked(StepAgent(m, g, pc, spurious).1)
    ensures Looked(pc) || (pc.AllocTake? && m.Head(Ret(g.Index(), pc.bin)) == END)
  {
    hide Cut, Stride, ClassOf;
  }

  lemma LookedBefore(c: State, act: Action, i: nat)
    requires Looked(Apply(c, act).PcOf(Sender(i)))
    requires Enabled(c, act)
    ensures !(act.Alloc? && act.host == i)
    ensures Looked(c.PcOf(Sender(i))) ||
            (c.PcOf(Sender(i)).AllocTake? && c.mem.Head(Ret(i, c.PcOf(Sender(i)).bin)) == END)
  {
    hide ClassOf, StepAgent, PopCache, PopInbox, SetMsg, TakeHead, FreeList;
    if act.Step? && act.agent == Sender(i) {
      StepLooked(c.mem, act.agent, c.PcOf(act.agent), act.spurious);
    }
  }

  /** A PE that goes to the heap has seen both its lists empty since its call. */
  lemma {:induction false} HeapIsLast(limit: nat, acts: seq<Action>, i: nat)
    requires BEGIN <= limit < END && IsRun(limit, acts) && Looked(After(limit, acts).PcOf(Sender(i)))
    ensures SawEmpty(limit, acts, i)
  {
    hide ClassOf, Enabled, Apply, MemOk, PayOk, Abs.Inv, SentOk, Logs, RanksTake, TakersOk, Want, EmptyFor;
    if acts != [] {
      var n := |acts| - 1;
      var c := After(limit, acts[..n]);
      var pc := c.PcOf(Sender(i));
      LookedBefore(c, acts[n], i);
      if Looked(pc) {
        HeapIsLast(limit, acts[..n], i);
      } else {
        AllocBin(limit, acts[..n], i);
        var a := RunRefines(limit, acts[..n]);
        assert PcOk(c.mem, a.view, Sender(i), pc);
        TakeSawEmpty(c.mem, i, pc.bin);
      }
    } else {
      NoneAtStart(limit, i);
    }
  }

  lemma TakeSawEmpty(m: Mem, i: nat, b: nat)
    requires m.Cache(i, b) == END && m.Head(Ret(i, b)) == END
    ensures EmptyFor(m, i, b)
  {
  }

  lemma NoneAtStart(limit: nat, i: nat)
    ensures After(limit, []).PcOf(Sender(i)) == Idle
  {
  }

  lemma StepHeapSeen(m: Mem, g: Agent, pc: Pc, spurious: bool)
    requires pc.AllocCas? ==> pc.off <= m.heap
    ensures var (m', pc') := StepAgent(m, g, pc, spurious); m.heap <= m'.heap && (pc'.AllocCas? ==> pc'.off <= m'.heap)
  {
    hide Cut, Stride, ClassOf;
  }

  /** The heap never moves back, so an offset read from it is never above it. */
  lemma {:induction false} HeapSeen(limit: nat, acts: seq<Action>, g: Agent)
    requires IsRun(limit, acts) && After(limit, acts).PcOf(g).AllocCas?
    ensures After(limit, acts).PcOf(g).off <= After(limit, acts).mem.heap
  {
    hide ClassOf, StepAgent, PopCache, PopInbox, SetMsg, TakeHead, FreeList;
    if acts != [] {
      var n := |acts| - 1;
      var c, act := After(limit, acts[..n]), acts[n];
      assert Enabled(c, act);
      HeapGrows(c, act);
      if act.Step? && act.agent == g {
        if c.PcOf(g).AllocCas? {
          HeapSeen(limit, acts[..n], g);
        }
        StepHeapSeen(c.mem, g, c.PcOf(g), act.spurious);
      } else {
        HeapSeen(limit, acts[..n], g);
      }
    }
  }

  lemma HeapGrows(c: State, act: Action)
    requires Enabled(c, act)
    ensures c.mem.heap <= Apply(c, act).mem.heap
  {
    hide ClassOf, Cut, StepAgent;
    if act.Step? {
      StepHeap(c.mem, act.agent, c.PcOf(act.agent), act.spurious);
    }
  }

  /** How an allocation ends, whatever the others do: with a block, or because the
      segment was not published, or because both its lists were seen empty since the
      call and the segment has no room for the block now. A new block is cut only
      after both lists were seen empty. */
  lemma AllocEnds(limit: nat, acts: seq<Action>, i: nat, spurious: bool)
    requires BEGIN <= limit < END && IsRun(limit, acts) && Allocates(After(limit, acts).PcOf(Sender(i)))
    ensures Enabled(After(limit, acts), Step(Sender(i), spurious))
    ensures var c, c' := After(limit, acts), Apply(After(limit, acts), Step(Sender(i), spurious));
            var b := ClassOf(Want(acts, i));
            && (c'.PcOf(Sender(i)) == Idle ==>
                  || (exists o :: Gained(c.mem, c'.mem, i, o))
                  || c.mem.heap == NIL
                  || (SawEmpty(limit, acts, i) && c.mem.heap + Stride(Cut(b)) > limit))
            && (c'.mem.heap != c.mem.heap ==> SawEmpty(limit, acts, i))
  {
    hide IsRun, After, ClassOf, Cut, Stride, MemOk, SawEmpty, Want;
    var c := After(limit, acts);
    var g, pc := Sender(i), c.PcOf(Sender(i));
    AllocBin(limit, acts, i);
    NoAliasing(limit, acts);
    LimitFixed(limit, acts);
    if Looked(pc) {
      HeapIsLast(limit, acts, i);
    }
    if pc.AllocCas? {
      HeapSeen(limit, acts, g);
    }
    EndStep(c, i, spurious);
    if pc.AllocPop? {
      PopHasBlock(limit, acts, i);
      PopGains(c.mem, i, pc.bin);
    } else if pc.AllocCas? {
      CutGains(c.mem, i, pc.bin);
    }
  }

  lemma PopHasBlock(limit: nat, acts: seq<Action>, i: nat)
    requires BEGIN <= limit < END && IsRun(limit, acts) && After(limit, acts).PcOf(Sender(i)).AllocPop?
    ensures After(limit, acts).mem.Cache(i, After(limit, acts).PcOf(Sender(i)).bin) != END
  {
    hide MemOk, PayOk, Abs.Inv, SentOk, Logs, RanksTake, TakersOk, After, IsRun;
    var a := RunRefines(limit, acts);
    var c := After(limit, acts);
    assert PcOk(c.mem, a.view, Sender(i), c.PcOf(Sender(i)));
  }

  lemma PopGains(m: Mem, i: nat, b: nat)
    requires m.Cache(i, b) !in m.loose
    ensures Gained(m, PopCache(m, i, b), i, m.Cache(i, b))
  {
  }

  lemma CutGains(m: Mem, i: nat, b: nat)
    requires m.heap !in m.loose
    ensures Gained(m, CutBlock(m, i, b), i, m.heap)
  {
  }

  /** The last step of an allocation. */
  lemma EndStep(c: State, i: nat, spurious: bool)
    requires Allocates(c.PcOf(Sender(i)))
    ensures var c', pc := Apply(c, Step(Sender(i), spurious)), c.PcOf(Sender(i));
            && (c'.PcOf(Sender(i)) == Idle ==>
                  || (pc.AllocCheck? && c.mem.heap == NIL)
                  || (pc.AllocPop? && c'.mem == PopCache(c.mem, i, pc.bin))
                  || (pc.AllocCas? && c'.mem == CutBlock(c.mem, i, pc.bin))
                  || (pc.AllocCas? && pc.off + Stride(Cut(pc.bin)) > c.mem.limit))
            && (c'.mem.heap != c.mem.heap ==> pc.AllocCas?)
  {
    hide Cut, Stride, ClassOf;
  }

  // ----- pushing

  /** A push with no other PE in between makes its block the head of the list, linked
      to the old head. */
  lemma LonePush(limit: nat, acts: seq<Action>, g: Agent, o: nat, l: ListId)
    requires IsRun(limit, acts) && After(limit, acts).PcOf(g) == PushLoad(o, l)
    ensures var c, c' := After(limit, acts), After(limit, acts + Solo(g, 3));
            && IsRun(limit, acts + Solo(g, 3)) && c'.PcOf(g) == Idle
            && c'.mem.Head(l) == o && c'.mem.Blk(o) == c.mem.Blk(o).(next := c.mem.Head(l)) && o !in c'.mem.loose
            && c'.mem.heap == c.mem.heap && c'.mem.cache == c.mem.cache && c'.mem.inbox == c.mem.inbox
            && (forall h :: h != g ==> c'.PcOf(h) == c.PcOf(h))
  {
    hide IsRun, After;
    assert acts + Solo(g, 0) == acts;
    SoloStep(limit, acts, g, 0);
    SoloStep(limit, acts, g, 1);
    SoloStep(limit, acts, g, 2);
  }

  lemma SoloLogs(limit: nat, acts: seq<Action>, g: Agent, n: nat)
    requires IsRun(limit, acts + Solo(g, n)) && After(limit, acts + Solo(g, n)).PcOf(g) != Idle
    ensures forall l :: Pushed(limit, acts + Solo(g, n + 1), l) ==
                        Pushed(limit, acts + Solo(g, n), l)
                        + PushedBy(After(limit, acts + Solo(g, n)), Step(g, false), l)
    ensures forall r: nat, d :: Received(limit, acts + Solo(g, n + 1), r, d) == Received(limit, acts + Solo(g, n), r, d)
  {
    hide IsRun, After, Pushed, Received, PushedBy;
    var run := acts + Solo(g, n);
    Extend(limit, run, Step(g, false));
    assert acts + Solo(g, n + 1) == run + [Step(g, false)];
    forall r: nat, d ensures Received(limit, acts + Solo(g, n + 1), r, d) == Received(limit, run, r, d) {
      assert ReceivedBy(After(limit, run), Step(g, false), r, d) == [];
    }
  }

  lemma PushLogs(limit: nat, acts: seq<Action>, i: nat, o: nat, l: ListId)
    requires IsRun(limit, acts) && After(limit, acts).PcOf(Sender(i)) == PushLoad(o, l)
    ensures Pushed(limit, acts + Solo(Sender(i), 3), l) == Pushed(limit, acts, l) + [After(limit, acts).mem.Blk(o).msg]
  {
    hide IsRun, After, Pushed, Received;
    var g := Sender(i);
    assert acts + Solo(g, 0) == acts;
    SoloStep(limit, acts, g, 0);
    SoloLogs(limit, acts, g, 0);
    SoloStep(limit, acts, g, 1);
    SoloLogs(limit, acts, g, 1);
    SoloLogs(limit, acts, g, 2);
  }

  /** A send with no other PE in between puts its message on the destination's
      queue. */
  lemma LoneSend(limit: nat, acts: seq<Action>, i: nat, o: nat)
    requires IsRun(limit, acts) && Enabled(After(limit, acts), Send(i, o))
    ensures var c, run := After(limit, acts), acts + [Send(i, o)] + Solo(Sender(i), 3);
            var l := ListOf(c.mem.Blk(o).msg.dest);
            && IsRun(limit, run) && After(limit, run).PcOf(Sender(i)) == Idle
            && After(limit, run).mem.Head(l) == o && After(limit, run).mem.Blk(o).msg == c.mem.Blk(o).msg
            && Pushed(limit, run, l) == Pushed(limit, acts, l) + [c.mem.Blk(o).msg]
  {
    hide IsRun, After, Pushed, Received, Solo;
    var m := After(limit, acts).mem;
    Extend(limit, acts, Send(i, o));
    LonePush(limit, acts + [Send(i, o)], Sender(i), o, ListOf(m.Blk(o).msg.dest));
    PushLogs(limit, acts + [Send(i, o)], i, o, ListOf(m.Blk(o).msg.dest));
  }

  /** A free with no other PE in between puts the block at the head of its owner's
      return list, where the owner's next allocation of that size will find it. */
  lemma LoneFree(limit: nat, acts: seq<Action>, r: nat, o: nat)
    requires IsRun(limit, acts) && Enabled(After(limit, acts), Free(r, o))
    ensures var c, run := After(limit, acts), acts + [Free(r, o)] + Solo(Receiver(r), 3);
            && IsRun(limit, run) && After(limit, run).PcOf(Receiver(r)) == Idle
            && After(limit, run).mem.Head(FreeList(c.mem.Blk(o))) == o
  {
    hide IsRun, After, FreeList;
    Extend(limit, acts, Free(r, o));
    LonePush(limit, acts + [Free(r, o)], Receiver(r), o, FreeList(After(limit, acts).mem.Blk(o)));
  }

  // ----- receiving

  lemma {:induction false} SoloMore(g: Agent, m: nat, n: nat)
    ensures Solo(g, m) + Solo(g, n) == Solo(g, m + n)
  {
    if n > 0 {
      SoloMore(g, m, n - 1);
    }
  }

  /** Rank `r` has moved the blocks `s` of list `l` into its inbox: the list is empty,
      and nothing else has changed. */
  ghost predicate Moved(m: Mem, m': Mem, r: nat, l: ListId, s: seq<nat>) {
    && m' == m.(heads := m'.heads, inbox := m'.inbox)
    && m'.Head(l) == END && (forall k :: k != l ==> m'.Head(k) == m.Head(k))
    && m'.Inbox(r) == m.Inbox(r) + s
  }

  ghost predicate OnlyInbox(m: Mem, m': Mem, r: nat, s: seq<nat>) {
    m' == m.(inbox := m'.inbox) && m'.Inbox(r) == m.Inbox(r) + s
  }

  /** One step of the walk. */
  lemma WalkStep(limit: nat, acts: seq<Action>, r: nat, l: ListId, off: nat)
    requires IsRun(limit, acts) && After(limit, acts).PcOf(Receiver(r)) == TakeWalk(l, off)
    ensures var c, c' := After(limit, acts), After(limit, acts + Solo(Receiver(r), 1));
            && IsRun(limit, acts + Solo(Receiver(r), 1))
            && if off == END then c'.PcOf(Receiver(r)) == AfterTake(l) && c'.mem == c.mem
               else c'.PcOf(Receiver(r)) == TakeWalk(l, c.mem.Blk(off).next) && OnlyInbox(c.mem, c'.mem, r, [off])
  {
    hide IsRun, After;
    assert acts + Solo(Receiver(r), 0) == acts;
    SoloStep(limit, acts, Receiver(r), 0);
  }

  lemma InboxMore(m: Mem, m1: Mem, m2: Mem, r: nat, s: seq<nat>, t: seq<nat>)
    requires OnlyInbox(m, m1, r, s) && OnlyInbox(m1, m2, r, t)
    ensures OnlyInbox(m, m2, r, s + t)
  {
    assert m.Inbox(r) + s + t == m.Inbox(r) + (s + t);
  }

  /** The walk down a list that was taken reaches every block of it. */
  lemma {:induction false} WalkAll(limit: nat, acts: seq<Action>, r: nat, l: ListId, off: nat, s: seq<nat>)
    requires IsRun(limit, acts) && After(limit, acts).PcOf(Receiver(r)) == TakeWalk(l, off)
    requires Chain(After(limit, acts).mem.blocks, off, s) && END !in After(limit, acts).mem.blocks
    ensures var run := acts + Solo(Receiver(r), |s| + 1);
            && IsRun(limit, run) && After(limit, run).PcOf(Receiver(r)) == AfterTake(l)
            && OnlyInbox(After(limit, acts).mem, After(limit, run).mem, r, s)
    decreases |s|
  {
    hide IsRun, After, StepAgent, AfterTake;
    var g, m := Receiver(r), After(limit, acts).mem;
    WalkStep(limit, acts, r, l, off);
    if s == [] {
      assert m.Inbox(r) + s == m.Inbox(r);
    } else {
      var next := acts + Solo(g, 1);
      ChainTail(m.blocks, off, s);
      WalkAll(limit, next, r, l, m.Blk(off).next, s[1..]);
      SoloMore(g, 1, |s|);
      assert next + Solo(g, |s|) == acts + Solo(g, |s| + 1);
      InboxMore(m, After(limit, next).mem, After(limit, next + Solo(g, |s|)).mem, r, [off], s[1..]);
      assert [off] + s[1..] == s;
    }
  }

  lemma ChainTail(blocks: map<nat, Block>, h: nat, s: seq<nat>)
    requires Chain(blocks, h, s) && s != []
    ensures Chain(blocks, blocks[h].next, s[1..])
  {
    assert forall k :: 0 <= k < |s| - 1 ==> s[1..][k] == s[k + 1] && NextOf(s[1..], k) == NextOf(s, k + 1);
  }

  /** takeList_ takes the list whole. */
  lemma TakeAll(limit: nat, acts: seq<Action>, r: nat, l: ListId, s: seq<nat>) returns (n: nat)
    requires IsRun(limit, acts) && After(limit, acts).PcOf(Receiver(r)) == TakeLoad(l)
    requires var m := After(limit, acts).mem; Chain(m.blocks, m.Head(l), s) && END !in m.blocks
    ensures var run := acts + Solo(Receiver(r), n);
            && IsRun(limit, run) && After(limit, run).PcOf(Receiver(r)) == AfterTake(l)
            && Moved(After(limit, acts).mem, After(limit, run).mem, r, l, s)
  {
    hide IsRun, After;
    var g, m := Receiver(r), After(limit, acts).mem;
    assert acts + Solo(g, 0) == acts;
    SoloStep(limit, acts, g, 0);
    if m.Head(l) == END {
      n := 1;
      assert s == [] && m.Inbox(r) + s == m.Inbox(r);
    } else {
      SoloStep(limit, acts, g, 1);
      WalkAll(limit, acts + Solo(g, 2), r, l, m.Head(l), s);
      SoloMore(g, 2, |s| + 1);
      n := |s| + 3;
      assert acts + Solo(g, 2) + Solo(g, |s| + 1) == acts + Solo(g, n);
    }
  }

  /** A poll with no other PE in between takes both queues whole: the rank's own and
      the node's, each in list order. */
  lemma LonePoll(limit: nat, acts: seq<Action>, r: nat, own: seq<nat>, node: seq<nat>) returns (n: nat)
    requires IsRun(limit, acts) && Enabled(After(limit, acts), Poll(r))
    requires var m := After(limit, acts).mem;
             END !in m.blocks && Chain(m.blocks, m.Head(Rq(r)), own) && Chain(m.blocks, m.Head(NodeRq), node)
    ensures var m, run := After(limit, acts).mem, acts + [Poll(r)] + Solo(Receiver(r), n);
            && IsRun(limit, run) && After(limit, run).PcOf(Receiver(r)) == Idle
            && var m' := After(limit, run).mem;
               && m'.Head(Rq(r)) == END && m'.Head(NodeRq) == END && m'.Inbox(r) == own + node
               && m' == m.(heads := m'.heads, inbox := m'.inbox)
  {
    hide IsRun, After, Chain;
    var g, m := Receiver(r), After(limit, acts).mem;
    var a0 := acts + [Poll(r)];
    Extend(limit, acts, Poll(r));
    var j := TakeAll(limit, a0, r, Rq(r), own);
    var k := TakeAll(limit, a0 + Solo(g, j), r, NodeRq, node);
    SoloMore(g, j, k);
    n := j + k;
    assert a0 + Solo(g, j) + Solo(g, k) == a0 + Solo(g, n);
    assert [] + own + node == own + node;
  }

  /** A rank's own steps send and deliver nothing. */
  lemma {:induction false} SoloQuiet(limit: nat, acts: seq<Action>, q: nat, n: nat)
    requires IsRun(limit, acts + Solo(Receiver(q), n))
    ensures forall l :: Pushed(limit, acts + Solo(Receiver(q), n), l) == Pushed(limit, acts, l)
    ensures forall r: nat, d :: Received(limit, acts + Solo(Receiver(q), n), r, d) == Received(limit, acts, r, d)
  {
    hide After, Pushed, Received, Enabled;
    var g := Receiver(q);
    if n == 0 {
      assert acts + Solo(g, 0) == acts;
    } else {
      var run := acts + Solo(g, n - 1);
      assert acts + Solo(g, n) == run + [Step(g, false)];
      assert (run + [Step(g, false)])[..|run|] == run;
      hide IsRun;
      SoloQuiet(limit, acts, q, n - 1);
      BusyStep(limit, run, g);
      SoloLogs(limit, acts, g, n - 1);
      forall l ensures PushedBy(After(limit, run), Step(g, false), l) == [] {
      }
    }
  }

  lemma BusyStep(limit: nat, acts: seq<Action>, g: Agent)
    requires Enabled(After(limit, acts), Step(g, false))
    ensures After(limit, acts).PcOf(g) != Idle
  {
  }

  function Delivers(r: nat, n: nat): seq<Action> {
    if n == 0 then [] else [Deliver(r)] + Delivers(r, n - 1)
  }

  /** The messages with destination `d` in an inbox, in the order it is emptied. */
  function Picked(m: Mem, box: seq<nat>, d: Dest): seq<Msg> {
    if box == [] then []
    else (if m.Blk(Last(box)).msg.dest == d then [m.Blk(Last(box)).msg] else []) + Picked(m, box[..|box| - 1], d)
  }

  /** Delivering the whole inbox hands over every message in it. */
  lemma {:induction false} DeliverAll(limit: nat, acts: seq<Action>, r: nat, box: seq<nat>)
    requires IsRun(limit, acts) && After(limit, acts).PcOf(Receiver(r)) == Idle
    requires After(limit, acts).mem.Inbox(r) == box
    ensures var m, run := After(limit, acts).mem, acts + Delivers(r, |box|);
            && IsRun(limit, run) && Drained(After(limit, run), r)
            && After(limit, run).mem == m.(inbox := After(limit, run).mem.inbox, loose := After(limit, run).mem.loose)
            && (forall l :: Pushed(limit, run, l) == Pushed(limit, acts, l))
            && (forall d :: Received(limit, run, r, d) == Received(limit, acts, r, d) + Picked(m, box, d))
    decreases |box|
  {
    hide IsRun, After, Pushed, Received;
    var m := After(limit, acts).mem;
    if box == [] {
      assert acts + Delivers(r, 0) == acts;
    } else {
      var next, rest := acts + [Deliver(r)], box[..|box| - 1];
      Extend(limit, acts, Deliver(r));
      DeliverAll(limit, next, r, rest);
      assert next + Delivers(r, |rest|) == acts + Delivers(r, |box|);
      forall d ensures Picked(After(limit, next).mem, rest, d) == Picked(m, rest, d) {
        PickedSame(After(limit, next).mem, m, rest, d);
      }
    }
  }

  lemma {:induction false} PickedSame(m: Mem, m': Mem, box: seq<nat>, d: Dest)
    requires m.blocks == m'.blocks
    ensures Picked(m, box, d) == Picked(m', box, d)
  {
    if box != [] {
      PickedSame(m, m', box[..|box| - 1], d);
    }
  }

  lemma {:induction false} PickedSplit(m: Mem, a: seq<nat>, b: seq<nat>, d: Dest)
    ensures Picked(m, a + b, d) == Picked(m, b, d) + Picked(m, a, d)
    decreases |b|
  {
    if b == [] {
      assert a + b == a;
    } else {
      var rest, last := b[..|b| - 1], m.Blk(Last(b)).msg;
      PickedSplit(m, a, rest, d);
      assert (a + b)[..|a + b| - 1] == a + rest && Last(a + b) == Last(b);
      var x := if last.dest == d then [last] else [];
      assert Picked(m, a + b, d) == x + Picked(m, a + rest, d) && Picked(m, b, d) == x + Picked(m, rest, d);
      hide Picked;
      assert x + (Picked(m, rest, d) + Picked(m, a, d)) == x + Picked(m, rest, d) + Picked(m, a, d);
    }
  }

  /** Blocks whose messages all have one destination. */
  ghost predicate AllFor(m: Mem, s: seq<nat>, d: Dest) {
    forall k :: 0 <= k < |s| ==> m.Blk(s[k]).msg.dest == d
  }

  lemma {:induction false} PickedAll(m: Mem, pay: map<nat, Msg>, s: seq<nat>, d: Dest, e: Dest)
    requires AllFor(m, s, d) && forall k :: 0 <= k < |s| ==> m.Blk(s[k]).msg == PayOf(pay, s[k])
    ensures Picked(m, s, e) == if d == e then Oldest(pay, s) else []
  {
    if s != [] {
      PickedAll(m, pay, s[..|s| - 1], d, e);
      OldestLast(pay, s);
    }
  }

  /** What is on a receive queue was sent there. */
  lemma QueueFor(c: State, a: Abs, d: Dest, s: seq<nat>, k: nat)
    requires Refines(c, a) && SentOk(a) && a.view.Consistent() && s == a.At(OnList(ListOf(d)))
    requires k <= |a.Sent(ListOf(d))| && Oldest(a.pay, s) == a.Sent(ListOf(d))[k..]
    ensures AllFor(c.mem, s, d) && forall j :: 0 <= j < |s| ==> c.mem.Blk(s[j]).msg == PayOf(a.pay, s[j])
  {
    hide HeapOk, ListOk, CacheOk, InboxOk, LooseOk, PcOk, BlockOk, View.Consistent, Oldest;
    forall j | 0 <= j < |s| ensures c.mem.Blk(s[j]).msg == PayOf(a.pay, s[j]) && c.mem.Blk(s[j]).msg.dest == d {
      PlaceOf(a.view, OnList(ListOf(d)), j);
      OldestHas(a.pay, s, j);
      InTail(a.Sent(ListOf(d)), k, PayOf(a.pay, s[j]));
      OneDest(d, PayOf(a.pay, s[j]).dest);
    }
  }

  lemma InTail(ms: seq<Msg>, k: nat, x: Msg)
    requires k <= |ms| && x in ms[k..]
    ensures x in ms
  {
  }

  lemma OneDest(d: Dest, e: Dest)
    requires ListOf(d) == ListOf(e)
    ensures d == e
  {
  }

  /** What a rank finds when it is about to poll: `own` and `node` are the blocks that
      the links from the two heads spell. */
  lemma QueuesAt(limit: nat, acts: seq<Action>, r: nat) returns (a: Abs, own: seq<nat>, node: seq<nat>)
    requires BEGIN <= limit < END && IsRun(limit, acts) && r < RANKS
    requires After(limit, acts).mem.heap != NIL && Drained(After(limit, acts), r)
    ensures var m := After(limit, acts).mem;
            && END !in m.blocks && Chain(m.blocks, m.Head(Rq(r)), own) && Chain(m.blocks, m.Head(NodeRq), node)
            && AllFor(m, own, ToRank(r)) && AllFor(m, node, ToNode)
            && (forall j :: 0 <= j < |own| ==> m.Blk(own[j]).msg == PayOf(a.pay, own[j]))
            && (forall j :: 0 <= j < |node| ==> m.Blk(node[j]).msg == PayOf(a.pay, node[j]))
    ensures Pushed(limit, acts, Rq(r)) == Received(limit, acts, r, ToRank(r)) + Oldest(a.pay, own)
    ensures |node| <= |Pushed(limit, acts, NodeRq)|
    ensures Oldest(a.pay, node) == Pushed(limit, acts, NodeRq)[|Pushed(limit, acts, NodeRq)| - |node|..]
  {
    a := RunRefines(limit, acts);
    var c, v := After(limit, acts), a.view;
    hide After, IsRun, Pushed, Received, SentOk, RanksTake, TakersOk, Oldest, Part, Drained, View.Consistent;
    own, node := v.At(OnList(Rq(r))), v.At(OnList(NodeRq));
    DrainedPipes0(c, a, r);
    assert a.RqFifo(r) && a.NodeRest();
    OldestLength(a.pay, node);
    QueueFor(c, a, ToRank(r), own, |a.GotRq(r)|);
    QueueFor(c, a, ToNode, node, |a.takers|);
    ListsThere(c, a, r);
  }

  lemma DrainedPipes0(c: State, a: Abs, r: nat)
    requires Refines(c, a) && Drained(c, r)
    ensures a.RqPipe(r) == a.At(OnList(Rq(r)))
  {
    hide HeapOk, BlocksOk, CacheOk, LooseOk, ListOk, PayOk, Chain;
    assert InboxOk(c.mem, a.view, r);
    assert PcOk(c.mem, a.view, Receiver(r), c.PcOf(Receiver(r)));
  }

  lemma ListsThere(c: State, a: Abs, r: nat)
    requires Refines(c, a) && c.mem.heap != NIL && r < RANKS
    ensures Chain(c.mem.blocks, c.mem.Head(Rq(r)), a.At(OnList(Rq(r))))
    ensures Chain(c.mem.blocks, c.mem.Head(NodeRq), a.At(OnList(NodeRq))) && END !in c.mem.blocks
  {
    hide BlocksOk, CacheOk, LooseOk, InboxOk, PayOk, PcOk, Chain;
    assert ListOk(c.mem, a.view, Rq(r)) && ListOk(c.mem, a.view, NodeRq);
    NoEndBlock(c.mem);
  }

  lemma NoEndBlock(m: Mem)
    requires HeapOk(m)
    ensures END !in m.blocks
  {
    assert forall o :: o in m.blocks ==> InSegment(m, o);
  }

  /** A rank that polls and delivers, with no other PE in between, has received all
      that was pushed on its own queue, and every node message that no rank had
      taken: `node` are the blocks that the links from the node head spell, and their
      messages are the last ones pushed there. */
  lemma PollReceives(limit: nat, acts: seq<Action>, r: nat) returns (own: seq<nat>, node: seq<nat>, n: nat)
    requires BEGIN <= limit < END && IsRun(limit, acts) && r < RANKS
    requires After(limit, acts).mem.heap != NIL && Drained(After(limit, acts), r)
    ensures var m := After(limit, acts).mem;
            Chain(m.blocks, m.Head(Rq(r)), own) && Chain(m.blocks, m.Head(NodeRq), node)
    ensures var run := acts + [Poll(r)] + Solo(Receiver(r), n) + Delivers(r, |own| + |node|);
            var pushed := Pushed(limit, acts, NodeRq);
            && IsRun(limit, run) && Drained(After(limit, run), r)
            && After(limit, run).mem.Head(Rq(r)) == END && After(limit, run).mem.Head(NodeRq) == END
            && Received(limit, run, r, ToRank(r)) == Pushed(limit, acts, Rq(r))
            && |node| <= |pushed|
            && Received(limit, run, r, ToNode) == Received(limit, acts, r, ToNode) + pushed[|pushed| - |node|..]
  {
    hide After, IsRun, Pushed, Received, Chain, Solo, Delivers, Oldest, Picked;
    var a;
    a, own, node := QueuesAt(limit, acts, r);
    PollPossible(limit, acts, r);
    n := LonePoll(limit, acts, r, own, node);
    var m, a0, polled := After(limit, acts).mem, acts + [Poll(r)], acts + [Poll(r)] + Solo(Receiver(r), n);
    Extend(limit, acts, Poll(r));
    SoloQuiet(limit, a0, r, n);
    DeliverAll(limit, polled, r, own + node);
    PollLogs(limit, acts, r);
    InboxPicked(m, After(limit, polled).mem, a.pay, own, node, r);
  }

  lemma InboxPicked(m: Mem, m': Mem, pay: map<nat, Msg>, own: seq<nat>, node: seq<nat>, r: nat)
    requires m.blocks == m'.blocks && AllFor(m, own, ToRank(r)) && AllFor(m, node, ToNode)
    requires forall j :: 0 <= j < |own| ==> m.Blk(own[j]).msg == PayOf(pay, own[j])
    requires forall j :: 0 <= j < |node| ==> m.Blk(node[j]).msg == PayOf(pay, node[j])
    ensures Picked(m', own + node, ToRank(r)) == Oldest(pay, own) && Picked(m', own + node, ToNode) == Oldest(pay, node)
  {
    hide Picked, Oldest, AllFor;
    forall d ensures Picked(m', own + node, d) == Picked(m, node, d) + Picked(m, own, d) {
      PickedSame(m', m, own + node, d);
      PickedSplit(m, own, node, d);
    }
    PickedAll(m, pay, own, ToRank(r), ToRank(r));
    PickedAll(m, pay, own, ToRank(r), ToNode);
    PickedAll(m, pay, node, ToNode, ToRank(r));
    PickedAll(m, pay, node, ToNode, ToNode);
  }

  lemma PollPossible(limit: nat, acts: seq<Action>, r: nat)
    requires r < RANKS && After(limit, acts).mem.heap != NIL && Drained(After(limit, acts), r)
    ensures Enabled(After(limit, acts), Poll(r))
  {
    hide After;
  }

  lemma PollLogs(limit: nat, acts: seq<Action>, r: nat)
    requires IsRun(limit, acts) && Enabled(After(limit, acts), Poll(r))
    ensures forall l :: Pushed(limit, acts + [Poll(r)], l) == Pushed(limit, acts, l)
    ensures forall q: nat, d :: Received(limit, acts + [Poll(r)], q, d) == Received(limit, acts, q, d)
  {
    hide After, IsRun, Pushed, Received, Enabled;
    Extend(limit, acts, Poll(r));
    forall l ensures PushedBy(After(limit, acts), Poll(r), l) == [] {
    }
    forall q: nat, d ensures ReceivedBy(After(limit, acts), Poll(r), q, d) == [] {
    }
  }

  // ----- starting up, and what a block holds

  const LISTS: nat := RANKS + 1 + HOST_PES * RET_BINS

  /** The lists of a segment, numbered. */
  function ListNo(k: nat): ListId {
    if k < RANKS then Rq(k)
    else if k == RANKS then NodeRq
    else Ret((k - RANKS - 1) / RET_BINS, (k - RANKS - 1) % RET_BINS)
  }

  lemma NoOf(l: ListId) returns (k: nat)
    requires Valid(l)
    ensures k < LISTS && ListNo(k) == l
  {
    match l
    case Rq(r) => k := r;
    case NodeRq => k := RANKS;
    case Ret(i, b) => k := RANKS + 1 + i * RET_BINS + b;
  }

  lemma ListNoValid(k: nat)
    requires k < LISTS
    ensures Valid(ListNo(k))
  {
  }

  function Inits(n: nat): seq<Action> {
    if n == 0 then [] else Inits(n - 1) + [InitList(ListNo(n - 1))]
  }

  lemma {:induction false} InitRun(limit: nat, n: nat)
    requires n <= LISTS
    ensures IsRun(limit, Inits(n)) && After(limit, Inits(n)).mem.heap == NIL
    ensures forall k: nat :: k < n ==> After(limit, Inits(n)).mem.Head(ListNo(k)) == END
  {
    hide IsRun, After, ListNo;
    if n == 0 {
      EmptyRun(limit);
    } else {
      InitRun(limit, n - 1);
      ListNoValid(n - 1);
      Extend(limit, Inits(n - 1), InitList(ListNo(n - 1)));
    }
  }

  lemma EmptyRun(limit: nat)
    ensures IsRun(limit, []) && After(limit, []) == Start(limit)
  {
  }

  /** The owner's constructor: once it has made every list empty it can publish the
      heap, and the segment is open for use. */
  lemma StartUp(limit: nat) returns (acts: seq<Action>)
    ensures IsRun(limit, acts) && After(limit, acts).mem.heap == BEGIN
    ensures forall l :: Valid(l) ==> After(limit, acts).mem.Head(l) == END
  {
    hide IsRun, After, ListNo, Inits;
    var n: nat := LISTS;
    InitRun(limit, n);
    var m := After(limit, Inits(n)).mem;
    forall l | Valid(l) ensures m.Head(l) == END {
      var k := NoOf(l);
    }
    Extend(limit, Inits(n), Publish);
    acts := Inits(n) + [Publish];
  }

  /** The message last written into block `o`. */
  function LastWrite(acts: seq<Action>, o: nat): Msg {
    if acts == [] then NO_MSG
    else
      var a := acts[|acts| - 1];
      if (a.Fill? || a.Scribble?) && a.o == o then a.m else LastWrite(acts[..|acts| - 1], o)
  }

  lemma StepMsg(m: Mem, g: Agent, pc: Pc, spurious: bool, o: nat)
    requires m.heap !in m.blocks
    ensures StepAgent(m, g, pc, spurious).0.Blk(o).msg == m.Blk(o).msg
  {
    hide Cut, Stride, ClassOf;
  }

  lemma MsgAfter(c: State, a: Action, o: nat)
    requires c.mem.heap !in c.mem.blocks
    ensures Apply(c, a).mem.Blk(o).msg == if (a.Fill? || a.Scribble?) && a.o == o then a.m else c.mem.Blk(o).msg
  {
    hide StepAgent, ClassOf;
    if a.Step? {
      StepMsg(c.mem, a.agent, c.PcOf(a.agent), a.spurious, o);
    }
  }

  /** A block holds what was last written into it: nothing the pool does on the way
      from sender to receiver touches the message. */
  lemma {:induction false} BlockHolds(limit: nat, acts: seq<Action>, o: nat)
    requires BEGIN <= limit < END && IsRun(limit, acts)
    ensures After(limit, acts).mem.Blk(o).msg == LastWrite(acts, o)
  {
    hide Apply, Enabled;
    if acts != [] {
      var n := |acts| - 1;
      BlockHolds(limit, acts[..n], o);
      NoAliasing(limit, acts[..n]);
      MsgAfter(After(limit, acts[..n]), acts[n], o);
    }
  }

  /** So what a send puts on a queue is what the sender wrote into its block. */
  lemma PushedIsWritten(limit: nat, acts: seq<Action>, act: Action, l: ListId)
    requires BEGIN <= limit < END && IsRun(limit, acts)
    ensures PushedBy(After(limit, acts), act, l) != [] ==>
              && act.Step? && After(limit, acts).PcOf(act.agent).PushCas?
              && PushedBy(After(limit, acts), act, l) == [LastWrite(acts, After(limit, acts).PcOf(act.agent).o)]
  {
    hide After, IsRun, LastWrite;
    if act.Step? && After(limit, acts).PcOf(act.agent).PushCas? {
      BlockHolds(limit, acts, After(limit, acts).PcOf(act.agent).o);
    }
  }

  // ----- there and back

  /** A message goes all the way: a sender that has a block writes a message into it
      and sends it, and the rank it is for polls and delivers; the last message the
      rank has then received from its own queue is this one. */
  lemma MessageTrip(limit: nat, acts: seq<Action>, i: nat, o: nat, r: nat, msg: Msg) returns (run: seq<Action>)
    requires BEGIN <= limit < END && IsRun(limit, acts) && r < RANKS && msg.dest == ToRank(r) && msg.from == i
    requires var c := After(limit, acts);
             && c.PcOf(Sender(i)) == Idle && c.mem.IsLoose(o, Hand(Sender(i))) && c.mem.heap != NIL && Drained(c, r)
    ensures acts <= run && IsRun(limit, run) && Drained(After(limit, run), r)
    ensures Received(limit, run, r, ToRank(r)) == Pushed(limit, acts, Rq(r)) + [msg]
  {
    hide IsRun, After, Pushed, Received, Solo, Delivers;
    var c := After(limit, acts);
    var filled := acts + [Fill(i, o, msg)];
    Extend(limit, acts, Fill(i, o, msg));
    FillLogs(limit, acts, i, o, msg);
    LoneSend(limit, filled, i, o);
    var sent := filled + [Send(i, o)] + Solo(Sender(i), 3);
    SendLeaves(limit, filled, i, o, r);
    var own, node, n := PollReceives(limit, sent, r);
    run := sent + [Poll(r)] + Solo(Receiver(r), n) + Delivers(r, |own| + |node|);
  }

  lemma FillLogs(limit: nat, acts: seq<Action>, i: nat, o: nat, msg: Msg)
    requires IsRun(limit, acts) && Enabled(After(limit, acts), Fill(i, o, msg))
    ensures forall l :: Pushed(limit, acts + [Fill(i, o, msg)], l) == Pushed(limit, acts, l)
  {
    hide After, IsRun, Pushed, Received, Enabled;
    Extend(limit, acts, Fill(i, o, msg));
    forall l ensures PushedBy(After(limit, acts), Fill(i, o, msg), l) == [] {
    }
  }

  /** A sender's steps leave the ranks and the heap as they were. */
  lemma SendLeaves(limit: nat, acts: seq<Action>, i: nat, o: nat, r: nat)
    requires IsRun(limit, acts) && Enabled(After(limit, acts), Send(i, o))
    ensures var c, c' := After(limit, acts), After(limit, acts + [Send(i, o)] + Solo(Sender(i), 3));
            c'.mem.heap == c.mem.heap && (Drained(c, r) ==> Drained(c', r))
  {
    hide IsRun, After, Solo, FreeList;
    Extend(limit, acts, Send(i, o));
    LonePush(limit, acts + [Send(i, o)], Sender(i), o, ListOf(After(limit, acts).mem.Blk(o).msg.dest));
  }

  /** A block comes back: once a rank has freed it, its owner's next allocation of that
      size gets this very block, if its own list is empty. */
  lemma BlockReturns(limit: nat, acts: seq<Action>, r: nat, o: nat, i: nat, size: nat) returns (n: nat)
    requires BEGIN <= limit < END && IsRun(limit, acts) && ClassOf(size) < RET_BINS
    requires var c := After(limit, acts);
             && c.mem.heap != NIL && c.mem.IsLoose(o, Held) && c.PcOf(Receiver(r)) == Idle
             && i < HOST_PES && c.PcOf(Sender(i)) == Idle && c.mem.Cache(i, ClassOf(size)) == END
             && FreeList(c.mem.Blk(o)) == Ret(i, ClassOf(size))
    ensures var freed := acts + [Free(r, o)] + Solo(Receiver(r), 3);
            var run := freed + [Alloc(i, size)] + Solo(Sender(i), n);
            && IsRun(limit, run) && After(limit, run).PcOf(Sender(i)) == Idle
            && Gained(After(limit, freed).mem, After(limit, run).mem, i, o)
            && After(limit, run).mem.heap == After(limit, acts).mem.heap
  {
    hide IsRun, After, Solo, ClassOf, FreeList, Stride, Cut;
    LooseNotEnd(limit, acts, o);
    LoneFree(limit, acts, r, o);
    FreeLeaves(limit, acts, r, o, i, ClassOf(size));
    n := LoneAlloc(limit, acts + [Free(r, o)] + Solo(Receiver(r), 3), i, size);
  }

  lemma LooseNotEnd(limit: nat, acts: seq<Action>, o: nat)
    requires BEGIN <= limit < END && IsRun(limit, acts) && o in After(limit, acts).mem.loose
    ensures o != END
  {
    hide IsRun, After, ListOk, CacheOk, InboxOk, BlockOk, View.Consistent;
    var v := Ownership(limit, acts);
    var m := After(limit, acts).mem;
    assert LooseOk(m, v, o);
    NoEndBlock(m);
  }

  lemma FreeLeaves(limit: nat, acts: seq<Action>, r: nat, o: nat, i: nat, b: nat)
    requires IsRun(limit, acts) && Enabled(After(limit, acts), Free(r, o))
    ensures var c, c' := After(limit, acts), After(limit, acts + [Free(r, o)] + Solo(Receiver(r), 3));
            && c'.mem.heap == c.mem.heap && c'.mem.Cache(i, b) == c.mem.Cache(i, b)
            && c'.PcOf(Sender(i)) == c.PcOf(Sender(i))
  {
    hide IsRun, After, Solo, FreeList;
    Extend(limit, acts, Free(r, o));
    LonePush(limit, acts + [Free(r, o)], Receiver(r), o, FreeList(After(limit, acts).mem.Blk(o)));
  }
}
