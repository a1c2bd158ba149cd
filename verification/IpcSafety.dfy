/** What holds of the shared-memory pool over every run: every sequence of
    actions, by any number of PEs, in any interleaving. */
module IpcSafety {
  import opened SizeClasses
  import opened IpcPlaces
  import opened IpcAbstract
  import opened IpcPool
  import opened IpcRefinement

  /** The state after a run of the segment of `limit` bytes. */
  function After(limit: nat, acts: seq<Action>): State {
    if acts == [] then Start(limit) else Apply(After(limit, acts[..|acts| - 1]), acts[|acts| - 1])
  }

  /** Each action was possible when it was taken. */
  ghost predicate IsRun(limit: nat, acts: seq<Action>) {
    acts != [] ==> IsRun(limit, acts[..|acts| - 1]) && Enabled(After(limit, acts[..|acts| - 1]), acts[|acts| - 1])
  }

  /** The message, if any, that an action puts on list `l`: a sender's successful
      compare-and-swap. */
  function PushedBy(c: State, act: Action, l: ListId): seq<Msg> {
    if !act.Step? || !act.agent.Sender? then []
    else match c.PcOf(act.agent)
         case PushCas(o, l', prev) =>
           if l' == l && c.mem.Head(l) == prev && !act.spurious then [c.mem.Blk(o).msg] else []
         case _ => []
  }

  /** The message, if any, with destination `d` that an action delivers to rank `r`. */
  function ReceivedBy(c: State, act: Action, r: nat, d: Dest): seq<Msg> {
    if act != Deliver(r) || c.mem.Inbox(r) == [] then []
    else var msg := c.mem.Blk(Last(c.mem.Inbox(r))).msg;
         if msg.dest == d then [msg] else []
  }

  function Pushed(limit: nat, acts: seq<Action>, l: ListId): seq<Msg> {
    if acts == [] then []
    else var n := |acts| - 1;
         Pushed(limit, acts[..n], l) + PushedBy(After(limit, acts[..n]), acts[n], l)
  }

  function Received(limit: nat, acts: seq<Action>, r: nat, d: Dest): seq<Msg> {
    if acts == [] then []
    else var n := |acts| - 1;
         Received(limit, acts[..n], r, d) + ReceivedBy(After(limit, acts[..n]), acts[n], r, d)
  }

  // ----- the abstract pool's logs are those of the run

  ghost predicate SentOk(a: Abs) {
    forall l, k :: 0 <= k < |a.Sent(l)| ==> ListOf(a.Sent(l)[k].dest) == l
  }

  ghost predicate Logs(limit: nat, acts: seq<Action>, a: Abs) {
    && (forall l :: a.Sent(l) == Pushed(limit, acts, l))
    && (forall r :: a.GotRq(r) == Received(limit, acts, r, ToRank(r)))
    && (forall r :: a.GotNode(r) == Received(limit, acts, r, ToNode))
  }

  lemma {:induction false} OldestHas(pay: map<nat, Msg>, s: seq<nat>, k: nat)
    requires k < |s|
    ensures PayOf(pay, s[k]) in Oldest(pay, s)
  {
    if k > 0 {
      OldestHas(pay, s[1..], k - 1);
      assert s[k] == s[1..][k - 1];
    } else {
      var n := |Oldest(pay, s[1..])|;
      assert Oldest(pay, s)[n] == PayOf(pay, s[0]);
    }
  }

  lemma {:induction false} PartIn(ms: seq<Msg>, takers: seq<nat>, r: nat, m: Msg)
    requires m in Part(ms, takers, r)
    ensures m in ms
  {
    if m in Part(ms[1..], takers[1..], r) {
      PartIn(ms[1..], takers[1..], r, m);
      assert ms[1..] <= ms[1..] && ms == [ms[0]] + ms[1..];
    }
  }

  /** What sits in a rank's inbox carries the destination of the queue it came
      from. */
  lemma InboxDest(a: Abs, r: nat)
    requires a.RqFifo(r) && a.NodeFifo(r) && SentOk(a)
    ensures a.At(InboxRq(r)) != [] ==> a.Pay(Last(a.At(InboxRq(r)))).dest == ToRank(r)
    ensures a.At(InboxNode(r)) != [] ==> a.Pay(Last(a.At(InboxNode(r)))).dest == ToNode
  {
    hide Oldest, Part;
    var s, t := a.RqPipe(r), a.NodePipe(r);
    var i, j := a.At(InboxRq(r)), a.At(InboxNode(r));
    if i != [] {
      var k := |a.At(OnList(Rq(r)))| + |i| - 1;
      assert s[k] == Last(i);
      OldestHas(a.pay, s, k);
      assert a.Pay(Last(i)) in a.Sent(Rq(r));
    }
    if j != [] {
      assert t[|j| - 1] == Last(j);
      OldestHas(a.pay, t, |j| - 1);
      assert a.Pay(Last(j)) in Part(a.Sent(NodeRq), a.takers, r);
      PartIn(a.Sent(NodeRq), a.takers, r, a.Pay(Last(j)));
    }
  }

  lemma SentAfter(a: Abs, e: Event, l: ListId)
    requires Can(a, e)
    ensures Do(a, e).Sent(l) ==
            a.Sent(l) + if e.PushSend? && ListOf(a.Pay(e.o).dest) == l then [a.Pay(e.o)] else []
  {
  }

  lemma GotAfter(a: Abs, e: Event, r: nat)
    requires Can(a, e)
    ensures Do(a, e).GotRq(r) ==
            a.GotRq(r) + if e == DeliverRq(r) then [a.Pay(Last(a.At(InboxRq(r))))] else []
    ensures Do(a, e).GotNode(r) ==
            a.GotNode(r) + if e == DeliverNode(r) then [a.Pay(Last(a.At(InboxNode(r))))] else []
  {
  }

  /** Only a sender's successful compare-and-swap is a send, only a delivery a
      delivery. */
  lemma EventKinds(c: State, a: Abs, act: Action)
    ensures var e := EventOf(c, a, act);
            && (e.PushSend? <==> act.Step? && act.agent.Sender? && c.PcOf(act.agent).PushCas? && !act.spurious
                                 && c.mem.Head(c.PcOf(act.agent).list) == c.PcOf(act.agent).prev)
            && (e.PushSend? ==> e.o == c.PcOf(act.agent).o)
            && (e.DeliverRq? || e.DeliverNode? ==> act.Deliver? && e == DeliverEvent(a.view, act.rank))
            && (act.Deliver? ==> e == DeliverEvent(a.view, act.rank))
            && (e.TakeNode? ==> act.Step? && Takes(c.PcOf(act.agent)) && e.rank == act.agent.Index())
  {
    hide ClassOf, Cut, Stride;
  }

  predicate Takes(pc: Pc) {
    pc.TakeLoad? || pc.TakeExchange? || pc.TakeWalk?
  }

  /** Only the ranks of the process take from the queues. */
  ghost predicate RanksTake(c: State) {
    forall g :: Takes(c.PcOf(g)) ==> g.Receiver? && g.rank < RANKS
  }

  lemma StepTakes(m: Mem, g: Agent, pc: Pc, spurious: bool)
    requires Takes(StepAgent(m, g, pc, spurious).1)
    ensures Takes(pc)
  {
    hide ClassOf, Cut, Stride;
  }

  lemma RanksTakeStays(c: State, act: Action)
    requires RanksTake(c) && Enabled(c, act)
    ensures RanksTake(Apply(c, act))
  {
    hide ClassOf, StepAgent, PopCache, PopInbox, SetMsg, TakeHead, FreeList;
    var c' := Apply(c, act);
    forall g | Takes(c'.PcOf(g)) ensures g.Receiver? && g.rank < RANKS {
      if act.Step? && act.agent == g {
        StepTakes(c.mem, g, c.PcOf(g), act.spurious);
      }
    }
  }

  ghost predicate TakersOk(a: Abs) {
    forall k :: 0 <= k < |a.takers| ==> a.takers[k] < RANKS
  }

  lemma TakersAfter(a: Abs, e: Event)
    requires TakersOk(a) && Can(a, e) && (e.TakeNode? ==> e.rank < RANKS)
    ensures TakersOk(Do(a, e))
  {
  }

  lemma TakersStay(c: State, a: Abs, act: Action)
    requires TakersOk(a) && RanksTake(c) && Can(a, EventOf(c, a, act))
    ensures TakersOk(Do(a, EventOf(c, a, act)))
  {
    hide TakersOk, Can, Do, EventOf;
    EventKinds(c, a, act);
    TakersAfter(a, EventOf(c, a, act));
  }

  lemma PushLog(c: State, a: Abs, act: Action, l: ListId)
    requires Refines(c, a) && Enabled(c, act) && Can(a, EventOf(c, a, act))
    ensures Do(a, EventOf(c, a, act)).Sent(l) == a.Sent(l) + PushedBy(c, act, l)
  {
    hide MemOk, PayOk, Do, Can, EventOf, StepEvent, Enabled, FreeList;
    var e := EventOf(c, a, act);
    SentAfter(a, e, l);
    EventKinds(c, a, act);
    if e.PushSend? {
      var pc := c.PcOf(act.agent);
      assert PcOk(c.mem, a.view, act.agent, pc);
      PushedIsLoose(c.mem, a.view, act.agent, pc.o, pc.list);
      PayAt(c.mem, a, pc.o);
    }
  }

  lemma DeliverLast(c: State, a: Abs, r: nat)
    requires Refines(c, a) && a.view.Consistent() && c.mem.Inbox(r) != []
    ensures var s, o := a.At(DeliverPlace(a.view, r)), Last(c.mem.Inbox(r));
            s != [] && Last(s) == o && c.mem.Blk(o).msg == a.Pay(o)
  {
    hide HeapOk, ListOk, CacheOk, LooseOk, PcOk, BlockOk, View.Consistent;
    var v := a.view;
    assert InboxOk(c.mem, v, r);
    var s := v.At(DeliverPlace(v, r));
    PlaceOf(v, DeliverPlace(v, r), |s| - 1);
  }

  lemma GotLog(c: State, a: Abs, act: Action, r: nat)
    requires Refines(c, a) && a.Inv() && SentOk(a) && Enabled(c, act) && Can(a, EventOf(c, a, act))
    ensures Do(a, EventOf(c, a, act)).GotRq(r) == a.GotRq(r) + ReceivedBy(c, act, r, ToRank(r))
    ensures Do(a, EventOf(c, a, act)).GotNode(r) == a.GotNode(r) + ReceivedBy(c, act, r, ToNode)
  {
    hide Refines, Do, Can, EventOf, StepEvent, Enabled, View.Consistent, SentOk, Oldest, Part;
    GotAfter(a, EventOf(c, a, act), r);
    EventKinds(c, a, act);
    if act == Deliver(r) && c.mem.Inbox(r) != [] {
      DeliverLast(c, a, r);
      assert a.RqFifo(r) && a.NodeFifo(r);
      InboxDest(a, r);
    } else if act == Deliver(r) {
      EnabledDeliver(c, r);
    }
  }

  lemma EnabledDeliver(c: State, r: nat)
    requires Enabled(c, Deliver(r))
    ensures c.mem.Inbox(r) != []
  {
  }

  lemma SentStays(a: Abs, e: Event)
    requires SentOk(a) && Can(a, e)
    ensures SentOk(Do(a, e))
  {
    hide Do, Can;
    var b := Do(a, e);
    forall l, k | 0 <= k < |b.Sent(l)| ensures ListOf(b.Sent(l)[k].dest) == l {
      SentAfter(a, e, l);
    }
  }

  /** Every run leaves the pool in a state of the abstract pool, with the run's own
      logs. */
  lemma {:induction false} RunRefines(limit: nat, acts: seq<Action>) returns (a: Abs)
    requires BEGIN <= limit < END && IsRun(limit, acts)
    ensures Refines(After(limit, acts), a) && a.Inv() && SentOk(a) && Logs(limit, acts, a)
    ensures RanksTake(After(limit, acts)) && TakersOk(a)
  {
    hide Enabled, Apply, Can, Do, EventOf, Refines, SentOk, RanksTake, TakersOk, PushedBy, ReceivedBy, StepEvent;
    hide Abs.Inv, Abs.Sent, Abs.GotRq, Abs.GotNode;
    if acts == [] {
      StartRefines(limit);
      a := EMPTY;
      EmptyLogs(limit);
    } else {
      var n := |acts| - 1;
      var c, act := After(limit, acts[..n]), acts[n];
      var b := RunRefines(limit, acts[..n]);
      InvView(b);
      ActionSimulates(c, b, act);
      var e := EventOf(c, b, act);
      a := Do(b, e);
      DoKeeps(b, e);
      SentStays(b, e);
      RanksTakeStays(c, act);
      TakersStay(c, b, act);
      forall l ensures a.Sent(l) == Pushed(limit, acts, l) {
        PushLog(c, b, act, l);
      }
      forall r: nat ensures a.GotRq(r) == Received(limit, acts, r, ToRank(r))
                         && a.GotNode(r) == Received(limit, acts, r, ToNode) {
        GotLog(c, b, act, r);
      }
    }
  }

  lemma EmptyLogs(limit: nat)
    ensures SentOk(EMPTY) && Logs(limit, [], EMPTY) && TakersOk(EMPTY) && RanksTake(Start(limit))
  {
  }

  lemma InvView(a: Abs)
    requires a.Inv()
    ensures a.view.Consistent()
  {
  }

  // ----- ownership

  /** Ownership: after every run there is a view that gives each block cut so far
      exactly one place and lists each place without repetition, and the memory is
      that view: the links from every list head spell exactly the blocks of that
      list (so no chain has a cycle, is shared or is cut short), the private lists
      and inboxes likewise, and a block is in somebody's hand or held by the
      receiver exactly when the view says so. */
  lemma Ownership(limit: nat, acts: seq<Action>) returns (v: View)
    requires BEGIN <= limit < END && IsRun(limit, acts)
    ensures v.Consistent() && v.place.Keys == After(limit, acts).mem.blocks.Keys
    ensures MemOk(After(limit, acts).mem, v)
  {
    hide MemOk;
    var a := RunRefines(limit, acts);
    InvView(a);
    v := a.view;
    KeysOfMem(After(limit, acts).mem, v);
  }

  lemma KeysOfMem(m: Mem, v: View)
    requires MemOk(m, v)
    ensures v.place.Keys == m.blocks.Keys
  {
  }

  /** No action hands out a block that somebody still has: what an allocation pops
      or cuts, and what a delivery pops, is in no hand; and the block a PE is about
      to push is in that PE's hand and no other's. */
  lemma NoAliasing(limit: nat, acts: seq<Action>)
    requires BEGIN <= limit < END && IsRun(limit, acts)
    ensures var m := After(limit, acts).mem;
            && (forall i, b :: m.Cache(i, b) != END ==> m.Cache(i, b) in m.blocks && m.Cache(i, b) !in m.loose)
            && (m.heap !in m.loose && m.heap !in m.blocks)
            && (forall r, k :: 0 <= k < |m.Inbox(r)| ==> m.Inbox(r)[k] in m.blocks && m.Inbox(r)[k] !in m.loose)
    ensures var c := After(limit, acts);
            forall g :: c.PcOf(g).PushCas? ==> c.mem.IsLoose(c.PcOf(g).o, Hand(g))
  {
    hide MemOk, BlocksOk, Chain, PayOk, Abs.Inv, Logs, SentOk, After, IsRun, View.Consistent, Ordered;
    var a := RunRefines(limit, acts);
    InvView(a);
    var c := After(limit, acts);
    var m, v := c.mem, a.view;
    forall i: nat, b: nat | m.Cache(i, b) != END ensures m.Cache(i, b) in m.blocks && m.Cache(i, b) !in m.loose {
      PopCacheMem(m, v, i, b);
      PlaceOf(v, Cached(i, b), 0);
      NotLoose(m, v, m.Cache(i, b));
    }
    forall r: nat, k | 0 <= k < |m.Inbox(r)| ensures m.Inbox(r)[k] in m.blocks && m.Inbox(r)[k] !in m.loose {
      InboxPlaced(m, v, r, k);
      NotLoose(m, v, m.Inbox(r)[k]);
    }
    HeapEnd(m, v);
    forall g | c.PcOf(g).PushCas? ensures m.IsLoose(c.PcOf(g).o, Hand(g)) {
      assert PcOk(m, v, g, c.PcOf(g));
      PushedIsLoose(m, v, g, c.PcOf(g).o, c.PcOf(g).list);
    }
  }

  lemma NotLoose(m: Mem, v: View, o: nat)
    requires MemOk(m, v) && o in v.place && (v.place[o].Cached? || v.place[o].InboxRq? || v.place[o].InboxNode?)
    ensures o in m.blocks && o !in m.loose
  {
    hide HeapOk, ListOk, CacheOk, InboxOk, BlockOk;
    assert LooseOk(m, v, o);
  }

  lemma InboxPlaced(m: Mem, v: View, r: nat, k: nat)
    requires MemOk(m, v) && v.Consistent() && k < |m.Inbox(r)|
    ensures var o := m.Inbox(r)[k];
            o in v.place && (v.place[o] == InboxRq(r) || v.place[o] == InboxNode(r))
  {
    hide HeapOk, BlocksOk, ListOk, CacheOk, LooseOk, View.Consistent;
    assert InboxOk(m, v, r);
    var s := v.At(InboxRq(r));
    if k < |s| {
      PlaceOf(v, InboxRq(r), k);
    } else {
      PlaceOf(v, InboxNode(r), k - |s|);
    }
  }

  lemma HeapEnd(m: Mem, v: View)
    requires MemOk(m, v)
    ensures m.heap !in m.blocks && m.heap !in m.loose
  {
    hide ListOk, CacheOk, InboxOk, BlockOk, Stride;
    if m.heap in m.blocks {
      assert InSegment(m, m.heap);
      StrideAligned(m.blocks[m.heap].size);
    }
    assert LooseOk(m, v, m.heap);
  }

  // ----- order of delivery

  /** Rank `r` is between polls and has nothing left to deliver. */
  predicate Drained(c: State, r: nat) {
    c.PcOf(Receiver(r)) == Idle && c.mem.Inbox(r) == []
  }

  /** The node queue's list is empty. */
  predicate NodeListEmpty(c: State) {
    c.mem.heap != NIL && c.mem.Head(NodeRq) == END
  }

  lemma DrainedPipes(c: State, a: Abs, r: nat)
    requires Refines(c, a) && Drained(c, r)
    ensures a.NodePipe(r) == []
    ensures r < RANKS && c.mem.heap != NIL && c.mem.Head(Rq(r)) == END ==> a.RqPipe(r) == []
  {
    hide HeapOk, BlocksOk, CacheOk, LooseOk, PayOk, Chain;
    var m, v := c.mem, a.view;
    assert ListOk(m, v, Rq(r)) && InboxOk(m, v, r);
    assert PcOk(m, v, Receiver(r), c.PcOf(Receiver(r)));
    if r < RANKS && m.heap != NIL && m.Head(Rq(r)) == END {
      ChainEmpty(m.blocks, m, END, v.At(OnList(Rq(r))));
    }
  }

  lemma NodeListTaken(c: State, a: Abs)
    requires Refines(c, a) && a.NodeRest() && NodeListEmpty(c)
    ensures |a.takers| == |a.Sent(NodeRq)|
  {
    hide HeapOk, BlocksOk, CacheOk, InboxOk, LooseOk, PayOk, PcOk, Chain;
    assert ListOk(c.mem, a.view, NodeRq);
    ChainEmpty(c.mem.blocks, c.mem, END, a.At(OnList(NodeRq)));
  }

  /** FIFO: what a rank has received from its own queue is a prefix, in order, of
      what was pushed there. `takers` names, for each node message taken so far, in
      push order, the one rank that took it: what a rank has received from the node
      queue is a prefix of its part, and all of it once the rank has drained its
      inbox; once the node queue is empty every message pushed there has a taker. */
  lemma DeliveryOrder(limit: nat, acts: seq<Action>) returns (takers: seq<nat>)
    requires BEGIN <= limit < END && IsRun(limit, acts)
    ensures forall r :: Received(limit, acts, r, ToRank(r)) <= Pushed(limit, acts, Rq(r))
    ensures |takers| <= |Pushed(limit, acts, NodeRq)|
    ensures forall k :: 0 <= k < |takers| ==> takers[k] < RANKS
    ensures NodeListEmpty(After(limit, acts)) ==> |takers| == |Pushed(limit, acts, NodeRq)|
    ensures forall r :: Received(limit, acts, r, ToNode) <= Part(Pushed(limit, acts, NodeRq), takers, r)
    ensures forall r :: Drained(After(limit, acts), r) ==>
                          Received(limit, acts, r, ToNode) == Part(Pushed(limit, acts, NodeRq), takers, r)
  {
    hide Refines, SentOk, RanksTake, Oldest, Part, After, IsRun, Received, Pushed, Drained, NodeListEmpty;
    var a := RunRefines(limit, acts);
    var c := After(limit, acts);
    takers := a.takers;
    if NodeListEmpty(c) {
      NodeListTaken(c, a);
    }
    forall r: nat ensures
        && Received(limit, acts, r, ToRank(r)) <= Pushed(limit, acts, Rq(r))
        && Received(limit, acts, r, ToNode) <= Part(Pushed(limit, acts, NodeRq), takers, r)
        && (Drained(c, r) ==> Received(limit, acts, r, ToNode) == Part(Pushed(limit, acts, NodeRq), takers, r))
    {
      assert a.RqFifo(r) && a.NodeFifo(r);
      if Drained(c, r) {
        DrainedPipes(c, a, r);
        assert Oldest(a.pay, []) == [] by { OldestLength(a.pay, []); }
      }
    }
  }

  /** All that the first `n` ranks have received from the node queue. */
  function NodeTotal(limit: nat, acts: seq<Action>, n: nat): multiset<Msg> {
    if n == 0 then multiset{}
    else NodeTotal(limit, acts, n - 1) + multiset(Received(limit, acts, n - 1, ToNode))
  }

  /** The messages whose taker is one of the first `n` ranks. */
  function PartsBelow(ms: seq<Msg>, takers: seq<nat>, n: nat): multiset<Msg> {
    if n == 0 then multiset{} else PartsBelow(ms, takers, n - 1) + multiset(Part(ms, takers, n - 1))
  }

  lemma PartHead(ms: seq<Msg>, takers: seq<nat>, r: nat)
    requires ms != [] && takers != []
    ensures takers[0] == r ==>
              multiset(Part(ms, takers, r)) == multiset(Part(ms[1..], takers[1..], r)) + multiset{ms[0]}
    ensures takers[0] != r ==> Part(ms, takers, r) == Part(ms[1..], takers[1..], r)
  {
    var p, q := Part(ms, takers, r), Part(ms[1..], takers[1..], r);
    assert p == (if takers[0] == r then [ms[0]] else []) + q;
    hide Part;
  }

  lemma {:induction false} PartsStep(ms: seq<Msg>, takers: seq<nat>, n: nat)
    requires ms != [] && takers != []
    ensures takers[0] < n ==> PartsBelow(ms, takers, n) == PartsBelow(ms[1..], takers[1..], n) + multiset{ms[0]}
    ensures takers[0] >= n ==> PartsBelow(ms, takers, n) == PartsBelow(ms[1..], takers[1..], n)
  {
    hide Part;
    if n > 0 {
      PartsStep(ms, takers, n - 1);
      PartHead(ms, takers, n - 1);
    }
  }

  lemma {:induction false} PartsNone(ms: seq<Msg>, takers: seq<nat>, n: nat)
    requires ms == [] || takers == []
    ensures PartsBelow(ms, takers, n) == multiset{}
  {
    if n > 0 {
      PartsNone(ms, takers, n - 1);
    }
  }

  /** Every message goes to one rank: the parts together are the whole. */
  lemma {:induction false} PartsCover(ms: seq<Msg>, takers: seq<nat>, n: nat)
    requires |ms| == |takers| && forall k :: 0 <= k < |takers| ==> takers[k] < n
    ensures PartsBelow(ms, takers, n) == multiset(ms)
  {
    hide PartsBelow, Part;
    if ms == [] {
      PartsNone(ms, takers, n);
    } else {
      PartsStep(ms, takers, n);
      PartsCover(ms[1..], takers[1..], n);
      assert ms == [ms[0]] + ms[1..];
    }
  }

  lemma {:induction false} TotalIsParts(limit: nat, acts: seq<Action>, takers: seq<nat>, n: nat)
    requires forall r :: 0 <= r < n ==>
                           Received(limit, acts, r, ToNode) == Part(Pushed(limit, acts, NodeRq), takers, r)
    ensures NodeTotal(limit, acts, n) == PartsBelow(Pushed(limit, acts, NodeRq), takers, n)
  {
    hide Received, Pushed, Part;
    if n > 0 {
      TotalIsParts(limit, acts, takers, n - 1);
    }
  }

  /** Nothing on the node queue is lost or delivered twice: once it is empty and
      every rank has drained its inbox, what the ranks have received from it is,
      counted with repetition, exactly what was pushed there. */
  lemma NodeQueueCovered(limit: nat, acts: seq<Action>)
    requires BEGIN <= limit < END && IsRun(limit, acts) && NodeListEmpty(After(limit, acts))
    requires forall r :: 0 <= r < RANKS ==> Drained(After(limit, acts), r)
    ensures NodeTotal(limit, acts, RANKS) == multiset(Pushed(limit, acts, NodeRq))
  {
    hide NodeTotal, PartsBelow, Received, Pushed, Part, After, IsRun, Drained, NodeListEmpty;
    var takers := DeliveryOrder(limit, acts);
    TotalIsParts(limit, acts, takers, RANKS);
    PartsCover(Pushed(limit, acts, NodeRq), takers, RANKS);
  }

  function From(ms: seq<Msg>, i: nat): seq<Msg> {
    if ms == [] then []
    else From(ms[..|ms| - 1], i) + if ms[|ms| - 1].from == i then [ms[|ms| - 1]] else []
  }

  lemma {:induction false} FromPrefix(p: seq<Msg>, q: seq<Msg>, i: nat)
    requires p <= q
    ensures From(p, i) <= From(q, i)
  {
    if |p| < |q| {
      FromPrefix(p, q[..|q| - 1], i);
    } else {
      assert p == q;
    }
  }

  /** Of what rank `r` has received from its own queue, the part from sender `i` is a
      prefix of what `i` has pushed there. */
  lemma PairOrder(limit: nat, acts: seq<Action>, i: nat, r: nat)
    requires BEGIN <= limit < END && IsRun(limit, acts)
    ensures From(Received(limit, acts, r, ToRank(r)), i) <= From(Pushed(limit, acts, Rq(r)), i)
  {
    var takers := DeliveryOrder(limit, acts);
    FromPrefix(Received(limit, acts, r, ToRank(r)), Pushed(limit, acts, Rq(r)), i);
  }

  /** Nothing is lost: once a rank has drained its inbox and its own queue is
      empty, it has received exactly what was pushed there. */
  lemma NothingLost(limit: nat, acts: seq<Action>, r: nat)
    requires BEGIN <= limit < END && IsRun(limit, acts) && r < RANKS
    requires var c := After(limit, acts);
             Drained(c, r) && c.mem.heap != NIL && c.mem.Head(Rq(r)) == END
    ensures Received(limit, acts, r, ToRank(r)) == Pushed(limit, acts, Rq(r))
  {
    hide Refines, SentOk, RanksTake, TakersOk, Oldest, Part, After, IsRun, Received, Pushed, Drained;
    var a := RunRefines(limit, acts);
    assert a.RqFifo(r);
    DrainedPipes(After(limit, acts), a, r);
    assert Oldest(a.pay, []) == [] by { OldestLength(a.pay, []); }
  }

  // ----- the heap, the size classes and start-up

  /** Every block lies inside the segment, starts at an aligned offset, and no two
      overlap, header included; what a private list holds has the list's size and
      names its owner, so freeing it puts it back on the list it came from. */
  lemma HeapSafety(limit: nat, acts: seq<Action>)
    requires BEGIN <= limit < END && IsRun(limit, acts)
    ensures var m := After(limit, acts).mem;
            && (forall o :: o in m.blocks ==>
                  BEGIN <= o && o % ALIGN == 0 && o + BLOCK_HEADER + m.blocks[o].size <= limit)
            && (forall o, p :: o in m.blocks && p in m.blocks && o < p ==> o + BLOCK_HEADER + m.blocks[o].size <= p)
            && (forall i, b :: m.Cache(i, b) != END ==>
                  m.Blk(m.Cache(i, b)).size == Cut(b) && FreeList(m.Blk(m.Cache(i, b))) == Ret(i, b))
  {
    hide MemOk, Refines, Chain, Abs.Inv, Logs, SentOk, After, IsRun, View.Consistent, Stride, Cut, ClassOf;
    var v := Ownership(limit, acts);
    var m := After(limit, acts).mem;
    HeapOfMem(m, v);
    LimitFixed(limit, acts);
    forall o | o in m.blocks
      ensures BEGIN <= o && o % ALIGN == 0 && o + BLOCK_HEADER + m.blocks[o].size <= limit
    {
      assert InSegment(m, o);
      StrideAligned(m.blocks[o].size);
    }
    forall o, p | o in m.blocks && p in m.blocks && o < p
      ensures o + BLOCK_HEADER + m.blocks[o].size <= p
    {
      StrideAligned(m.blocks[o].size);
    }
    forall i: nat, b: nat | m.Cache(i, b) != END
      ensures m.Blk(m.Cache(i, b)).size == Cut(b) && FreeList(m.Blk(m.Cache(i, b))) == Ret(i, b)
    {
      PopCacheMem(m, v, i, b);
      PlaceOf(v, Cached(i, b), 0);
      CachedSize(m, v, m.Cache(i, b));
    }
  }

  lemma HeapOfMem(m: Mem, v: View)
    requires MemOk(m, v)
    ensures HeapOk(m)
  {
  }

  lemma CachedSize(m: Mem, v: View, o: nat)
    requires MemOk(m, v) && o in v.place && v.place[o].Cached?
    ensures o in m.blocks && m.blocks[o].size == Cut(v.place[o].bin)
    ensures FreeList(m.blocks[o]) == Ret(v.place[o].host, v.place[o].bin)
  {
    hide HeapOk, ListOk, CacheOk, InboxOk, LooseOk, Cut, ClassOf;
    assert BlockOk(m.blocks[o], v.place[o]);
  }

  lemma {:induction false} LimitFixed(limit: nat, acts: seq<Action>)
    ensures After(limit, acts).mem.limit == limit
  {
    hide Apply;
    if acts != [] {
      LimitFixed(limit, acts[..|acts| - 1]);
      LimitStays(After(limit, acts[..|acts| - 1]), acts[|acts| - 1]);
    }
  }

  lemma LimitStays(c: State, act: Action)
    ensures Apply(c, act).mem.limit == c.mem.limit
  {
    hide ClassOf, Cut, Stride, StepAgent;
    if act.Step? {
      StepLimit(c.mem, act.agent, c.PcOf(act.agent), act.spurious);
    }
  }

  lemma StepLimit(m: Mem, g: Agent, pc: Pc, spurious: bool)
    ensures StepAgent(m, g, pc, spurious).0.limit == m.limit
  {
    hide ClassOf, Cut, Stride;
  }

  /** The size in PE `i`'s latest call of CmiAllocIpcBlock. */
  function Want(acts: seq<Action>, i: nat): nat {
    if acts == [] then 0
    else var act := acts[|acts| - 1];
         if act.Alloc? && act.host == i then act.size else Want(acts[..|acts| - 1], i)
  }

  lemma StepBin(m: Mem, g: Agent, pc: Pc, spurious: bool)
    requires Allocates(StepAgent(m, g, pc, spurious).1)
    ensures Allocates(pc) && StepAgent(m, g, pc, spurious).1.bin == pc.bin
  {
    hide ClassOf, Cut, Stride;
  }

  /** A PE inside an allocation works on the class of the size it was asked for. */
  lemma {:induction false} AllocBin(limit: nat, acts: seq<Action>, i: nat)
    requires IsRun(limit, acts)
    ensures var pc := After(limit, acts).PcOf(Sender(i)); Allocates(pc) ==> pc.bin == ClassOf(Want(acts, i))
  {
    hide ClassOf, StepAgent, PopCache, PopInbox, SetMsg, TakeHead, FreeList;
    if acts != [] {
      var n := |acts| - 1;
      AllocBin(limit, acts[..n], i);
      var c, act := After(limit, acts[..n]), acts[n];
      assert Enabled(c, act);
      if act.Step? && act.agent == Sender(i) && Allocates(Apply(c, act).PcOf(Sender(i))) {
        StepBin(c.mem, act.agent, c.PcOf(act.agent), act.spurious);
      }
    }
  }

  /** What puts a block into a sender's hand: an allocation's pop or its cut. */
  lemma NewInHand(c: State, act: Action, i: nat, o: nat)
    requires Enabled(c, act)
    requires Apply(c, act).mem.IsLoose(o, Hand(Sender(i))) && !c.mem.IsLoose(o, Hand(Sender(i)))
    ensures || (act.Alloc? && act.host == i && ClassOf(act.size) < RET_BINS
                && c.mem.Cache(i, ClassOf(act.size)) == o != END
                && Apply(c, act).mem == PopCache(c.mem, i, ClassOf(act.size)))
            || (act.Step? && act.agent.Index() == i && c.PcOf(act.agent).AllocPop?
                && o == c.mem.Cache(i, c.PcOf(act.agent).bin)
                && Apply(c, act).mem == PopCache(c.mem, i, c.PcOf(act.agent).bin))
            || (act.Step? && act.agent.Index() == i && c.PcOf(act.agent).AllocCas?
                && o == c.mem.heap && Apply(c, act).mem == CutBlock(c.mem, i, c.PcOf(act.agent).bin))
  {
    hide ClassOf, Cut, Stride, FreeList;
  }

  /** Every block an allocation returns has room for the size asked for, and is the
      caller's own. */
  lemma RoomForRequest(limit: nat, acts: seq<Action>, act: Action, i: nat, o: nat)
    requires BEGIN <= limit < END && IsRun(limit, acts + [act])
    requires After(limit, acts + [act]).mem.IsLoose(o, Hand(Sender(i)))
    requires !After(limit, acts).mem.IsLoose(o, Hand(Sender(i)))
    ensures var m := After(limit, acts + [act]).mem;
            o in m.blocks && Want(acts + [act], i) <= m.blocks[o].size && m.blocks[o].owner == i
  {
    hide ClassOf, Cut, Stride, Enabled, Apply, IsRun, After, Want, FreeList, PcOk, MemOk, PayOk, RanksTake;
    hide Abs.Inv, SentOk, Logs, TakersOk;
    assert (acts + [act])[..|acts|] == acts;
    OneMore(limit, acts, act);
    var c := After(limit, acts);
    NewInHand(c, act, i, o);
    HeapSafety(limit, acts);
    WantMore(acts, act, i);
    if act.Step? {
      var a := RunRefines(limit, acts);
      var g, pc := act.agent, c.PcOf(act.agent);
      assert PcOk(c.mem, a.view, g, pc);
      InAlloc(c.mem, a.view, g, pc);
      AllocBin(limit, acts, i);
    }
  }

  lemma OneMore(limit: nat, acts: seq<Action>, act: Action)
    requires IsRun(limit, acts + [act])
    ensures IsRun(limit, acts) && Enabled(After(limit, acts), act)
    ensures After(limit, acts + [act]) == Apply(After(limit, acts), act)
  {
    hide Enabled, Apply;
    assert (acts + [act])[..|acts|] == acts;
  }

  lemma WantMore(acts: seq<Action>, act: Action, i: nat)
    ensures Want(acts + [act], i) == if act.Alloc? && act.host == i then act.size else Want(acts, i)
  {
    assert (acts + [act])[..|acts|] == acts;
  }

  lemma InAlloc(m: Mem, v: View, g: Agent, pc: Pc)
    requires PcOk(m, v, g, pc) && (pc.AllocPop? || pc.AllocCas?)
    ensures g.Sender? && pc.bin < RET_BINS && (pc.AllocPop? ==> m.Cache(g.Index(), pc.bin) != END)
  {
  }

  /** Until the owner publishes the heap offset nothing of the segment is in use:
      no PE is inside an access of a list or of the heap, and there are no
      blocks. */
  lemma NothingBeforePublish(limit: nat, acts: seq<Action>)
    requires BEGIN <= limit < END && IsRun(limit, acts)
    requires After(limit, acts).mem.heap == NIL
    ensures var c := After(limit, acts);
            && c.mem.blocks == map[] && c.mem.loose == map[]
            && (forall g :: c.PcOf(g).Idle? || c.PcOf(g).AllocCheck?)
            && (forall r :: c.mem.Inbox(r) == [])
  {
    hide Chain, Abs.Inv, Logs, SentOk, After, IsRun, View.Consistent, Ordered;
    var a := RunRefines(limit, acts);
    InvView(a);
    var c := After(limit, acts);
    UnpublishedEmpty(c.mem, a.view);
    forall g ensures c.PcOf(g).Idle? || c.PcOf(g).AllocCheck? {
      assert PcOk(c.mem, a.view, g, c.PcOf(g));
    }
    forall r: nat ensures c.mem.Inbox(r) == [] {
      assert InboxOk(c.mem, a.view, r);
    }
    forall o ensures o !in c.mem.loose {
      assert LooseOk(c.mem, a.view, o);
    }
  }

  /** The heap moves only when a block is cut, by that block's stride: an
      allocation that finds no room, and a compare-and-swap that loses a race,
      leave it where it was. */
  lemma HeapMoves(c: State, act: Action)
    requires c.mem.heap != NIL && Enabled(c, act) && Apply(c, act).mem.heap != c.mem.heap
    ensures act.Step? && !act.spurious && c.PcOf(act.agent).AllocCas? && c.PcOf(act.agent).off == c.mem.heap
    ensures var m', b := Apply(c, act).mem, c.PcOf(act.agent).bin;
            m'.heap == c.mem.heap + Stride(Cut(b)) <= c.mem.limit && c.mem.heap in m'.blocks
            && m'.blocks[c.mem.heap].size == Cut(b)
  {
    hide ClassOf, Cut, Stride, StepAgent;
    if act.Step? {
      StepHeap(c.mem, act.agent, c.PcOf(act.agent), act.spurious);
    }
  }

  lemma StepHeap(m: Mem, g: Agent, pc: Pc, spurious: bool)
    ensures var m' := StepAgent(m, g, pc, spurious).0;
            m'.heap != m.heap ==>
              && pc.AllocCas? && !spurious && pc.off == m.heap
              && m'.heap == m.heap + Stride(Cut(pc.bin)) <= m.limit && m.heap in m'.blocks
              && m'.blocks[m.heap].size == Cut(pc.bin)
  {
    hide ClassOf, Cut, Stride;
  }
}
