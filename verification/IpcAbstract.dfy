/** The shared-memory pool with each list operation taken as one step: lists are
    sequences of blocks, a push adds one block in front, a take removes them all.
    Logs record what was sent and delivered. */
module IpcAbstract {
  import opened IpcPlaces

  /** The destination a sender writes into the message header: a rank of the
      receiving process, or the node marker. */
  datatype Dest = ToRank(rank: nat) | ToNode

  datatype Msg = Msg(dest: Dest, from: nat, body: nat)

  const NO_MSG := Msg(ToNode, 0, 0)

  function ListOf(d: Dest): ListId {
    match d
    case ToRank(r) => Rq(r)
    case ToNode => NodeRq
  }

  /** `sent`: every successful push onto a receive queue, in order. `gotRq`,
      `gotNode`: what each rank has delivered from its own queue and from the node
      queue, in order. `takers[k]`: the rank that took the k-th node message. */
  datatype Abs = Abs(
    view: View,
    pay: map<nat, Msg>,
    sent: map<ListId, seq<Msg>>,
    gotRq: map<nat, seq<Msg>>,
    gotNode: map<nat, seq<Msg>>,
    takers: seq<nat>)
  {
    function At(p: Place): seq<nat> { view.At(p) }
    function Pay(o: nat): Msg { PayOf(pay, o) }
    function Sent(l: ListId): seq<Msg> { if l in sent then sent[l] else [] }
    function GotRq(r: nat): seq<Msg> { if r in gotRq then gotRq[r] else [] }
    function GotNode(r: nat): seq<Msg> { if r in gotNode then gotNode[r] else [] }

    function RqPipe(r: nat): seq<nat> { RqPipeOf(view, r) }

    function NodePipe(r: nat): seq<nat> { NodePipeOf(view, r) }

    /** A rank's own queue: what was pushed is what the rank has delivered, then
        what is on its way, oldest first. */
    ghost predicate RqFifo(r: nat) {
      Sent(Rq(r)) == GotRq(r) + Oldest(pay, RqPipe(r))
    }

    /** The node queue: the pushes not yet taken are still on the list, ... */
    ghost predicate NodeRest() {
      && |takers| <= |Sent(NodeRq)|
      && Sent(NodeRq)[|takers|..] == Oldest(pay, At(OnList(NodeRq)))
    }

    /** ... and those taken split into one part per taking rank, in order. */
    ghost predicate NodeFifo(r: nat) {
      GotNode(r) + Oldest(pay, NodePipe(r)) == Part(Sent(NodeRq), takers, r)
    }

    ghost predicate Inv() {
      && view.Consistent()
      && (forall r :: RqFifo(r))
      && NodeRest()
      && (forall r :: NodeFifo(r))
    }
  }

  /** Blocks on their way to rank `r` through its own queue, newest first. */
  function RqPipeOf(v: View, r: nat): seq<nat> {
    v.At(OnList(Rq(r))) + (v.At(InboxRq(r)) + v.At(WalkRq(r)))
  }

  /** Blocks rank `r` has taken from the node queue, newest first. */
  function NodePipeOf(v: View, r: nat): seq<nat> {
    v.At(InboxNode(r)) + v.At(WalkNode(r))
  }

  function PayOf(pay: map<nat, Msg>, o: nat): Msg {
    if o in pay then pay[o] else NO_MSG
  }

  /** The messages of a newest-first list of blocks, oldest first. */
  function Oldest(pay: map<nat, Msg>, s: seq<nat>): seq<Msg> {
    if s == [] then [] else Oldest(pay, s[1..]) + [PayOf(pay, s[0])]
  }

  /** The messages of `ms` whose taker is `r`. */
  function Part(ms: seq<Msg>, takers: seq<nat>, r: nat): seq<Msg> {
    if takers == [] || ms == [] then []
    else (if takers[0] == r then [ms[0]] else []) + Part(ms[1..], takers[1..], r)
  }

  const EMPTY := Abs(View(map[], map[]), map[], map[], map[], map[], [])

  datatype Event =
    | Nop
    | CutNew(host: nat, o: nat)
    | AllocCached(host: nat, bin: nat)
    | TakeFreed(host: nat, bin: nat)
    | Write(o: nat, m: Msg)
    | PushSend(host: nat, o: nat)
    | BeginFree(rank: nat, o: nat)
    | PushFree(rank: nat, o: nat, list: ListId)
    | TakeRq(rank: nat)
    | TakeNode(rank: nat)
    | ShiftRq(rank: nat)
    | ShiftNode(rank: nat)
    | DeliverRq(rank: nat)
    | DeliverNode(rank: nat)

  ghost predicate Can(a: Abs, e: Event) {
    match e
    case Nop => true
    case CutNew(i, o) => o !in a.view.place
    case AllocCached(i, b) => a.At(Cached(i, b)) != []
    case TakeFreed(i, b) => a.At(Cached(i, b)) == []
    case Write(o, m) => o in a.view.place && !Ordered(a.view.place[o])
    case PushSend(i, o) => o in a.view.place && a.view.place[o] == Hand(Sender(i))
    case BeginFree(r, o) => o in a.view.place && a.view.place[o] == Held
    case PushFree(r, o, l) => o in a.view.place && a.view.place[o] == Hand(Receiver(r)) && l.Ret?
    case TakeRq(r) => a.At(InboxRq(r)) == [] && a.At(WalkRq(r)) == []
    case TakeNode(r) => a.At(InboxNode(r)) == [] && a.At(WalkNode(r)) == []
    case ShiftRq(r) => a.At(WalkRq(r)) != []
    case ShiftNode(r) => a.At(WalkNode(r)) != []
    case DeliverRq(r) => a.At(InboxRq(r)) != [] && a.At(WalkRq(r)) == []
    case DeliverNode(r) => a.At(InboxNode(r)) != [] && a.At(WalkNode(r)) == []
  }

  function Last(s: seq<nat>): nat
    requires s != []
  {
    s[|s| - 1]
  }

  ghost function Do(a: Abs, e: Event): Abs
    requires Can(a, e)
  {
    var v := a.view;
    match e
    case Nop => a
    case CutNew(i, o) => a.(view := v.Put(o, Hand(Sender(i))))
    case AllocCached(i, b) => a.(view := v.PopTop(Cached(i, b), Hand(Sender(i))))
    case TakeFreed(i, b) => a.(view := v.MoveAll(OnList(Ret(i, b)), Cached(i, b)))
    case Write(o, m) => a.(pay := a.pay[o := m])
    case PushSend(i, o) =>
      var l := ListOf(a.Pay(o).dest);
      a.(view := v.Push(o, OnList(l)), sent := a.sent[l := a.Sent(l) + [a.Pay(o)]])
    case BeginFree(r, o) => a.(view := v.Put(o, Hand(Receiver(r))))
    case PushFree(r, o, l) => a.(view := v.Push(o, OnList(l)))
    case TakeRq(r) => a.(view := v.MoveAll(OnList(Rq(r)), WalkRq(r)))
    case TakeNode(r) =>
      a.(view := v.MoveAll(OnList(NodeRq), WalkNode(r)),
         takers := a.takers + seq(|v.At(OnList(NodeRq))|, k => r))
    case ShiftRq(r) => a.(view := v.Shift(WalkRq(r), InboxRq(r)))
    case ShiftNode(r) => a.(view := v.Shift(WalkNode(r), InboxNode(r)))
    case DeliverRq(r) =>
      a.(view := v.PopBack(InboxRq(r), Held),
         gotRq := a.gotRq[r := a.GotRq(r) + [a.Pay(Last(v.At(InboxRq(r))))]])
    case DeliverNode(r) =>
      a.(view := v.PopBack(InboxNode(r), Held),
         gotNode := a.gotNode[r := a.GotNode(r) + [a.Pay(Last(v.At(InboxNode(r))))]])
  }

  // ----- sequences of messages

  lemma {:induction false} OldestConcat(pay: map<nat, Msg>, s: seq<nat>, t: seq<nat>)
    ensures Oldest(pay, s + t) == Oldest(pay, t) + Oldest(pay, s)
  {
    if s == [] {
      assert s + t == t;
    } else {
      OldestConcat(pay, s[1..], t);
      assert (s + t)[1..] == s[1..] + t;
    }
  }

  lemma OldestPush(pay: map<nat, Msg>, o: nat, s: seq<nat>, t: seq<nat>)
    ensures Oldest(pay, ([o] + s) + t) == Oldest(pay, s + t) + [PayOf(pay, o)]
  {
    assert (([o] + s) + t)[1..] == s + t;
  }

  /** Popping the back of an inbox yields its oldest message. */
  lemma OldestLast(pay: map<nat, Msg>, s: seq<nat>)
    requires s != []
    ensures Oldest(pay, s) == [PayOf(pay, Last(s))] + Oldest(pay, s[..|s| - 1])
  {
    var n := |s| - 1;
    OldestConcat(pay, s[..n], s[n..]);
    assert s == s[..n] + s[n..];
    assert s[n..] == [Last(s)];
    assert Oldest(pay, [Last(s)]) == Oldest(pay, []) + [PayOf(pay, Last(s))];
  }

  /** Writing into a block leaves the messages of a list without it alone. */
  lemma {:induction false} OldestFrame(pay: map<nat, Msg>, o: nat, m: Msg, s: seq<nat>)
    requires o !in s
    ensures Oldest(pay[o := m], s) == Oldest(pay, s)
  {
    if s != [] {
      OldestFrame(pay, o, m, s[1..]);
    }
  }

  lemma {:induction false} OldestLength(pay: map<nat, Msg>, s: seq<nat>)
    ensures |Oldest(pay, s)| == |s|
  {
    if s != [] {
      OldestLength(pay, s[1..]);
    }
  }

  lemma {:induction false} PartExtends(ms: seq<Msg>, more: seq<Msg>, takers: seq<nat>, r: nat)
    requires |takers| <= |ms|
    ensures Part(ms + more, takers, r) == Part(ms, takers, r)
  {
    if takers != [] {
      PartExtends(ms[1..], more, takers[1..], r);
      assert (ms + more)[1..] == ms[1..] + more;
    }
  }

  /** A take by rank `q` of everything left adds that, in order, to the part of
      `q` and nothing to the other parts. */
  lemma {:induction false} PartTake(ms: seq<Msg>, takers: seq<nat>, q: nat, r: nat)
    requires |takers| <= |ms|
    ensures Part(ms, takers + seq(|ms| - |takers|, k => q), r)
         == Part(ms, takers, r) + if q == r then ms[|takers|..] else []
    decreases |ms|
  {
    var rest := seq(|ms| - |takers|, k => q);
    if ms != [] {
      if takers == [] {
        PartTake(ms[1..], [], q, r);
        RestTail(|ms|, q);
      } else {
        PartTake(ms[1..], takers[1..], q, r);
        assert (takers + rest)[1..] == takers[1..] + seq(|ms[1..]| - |takers[1..]|, k => q);
        assert ms[|takers|..] == ms[1..][|takers[1..]|..];
      }
    }
  }

  lemma RestTail(n: nat, q: nat)
    requires n > 0
    ensures var rest := [] + seq(n, k => q); rest[0] == q && rest[1..] == [] + seq(n - 1, k => q)
  {
  }

  // ----- every event keeps the invariant

  ghost predicate Fifo(a: Abs, r: nat) {
    a.RqFifo(r) && a.NodeFifo(r) && a.NodeRest()
  }

  lemma RqSame(a: Abs, b: Abs, r: nat)
    requires a.RqFifo(r) && b.pay == a.pay
    requires b.Sent(Rq(r)) == a.Sent(Rq(r)) && b.GotRq(r) == a.GotRq(r)
    requires b.RqPipe(r) == a.RqPipe(r)
    ensures b.RqFifo(r)
  {
  }

  lemma NodeSame(a: Abs, b: Abs, r: nat)
    requires a.NodeFifo(r) && b.pay == a.pay && b.GotNode(r) == a.GotNode(r)
    requires Part(b.Sent(NodeRq), b.takers, r) == Part(a.Sent(NodeRq), a.takers, r)
    requires b.NodePipe(r) == a.NodePipe(r)
    ensures b.NodeFifo(r)
  {
  }

  ghost predicate SamePipes(v: View, w: View, r: nat) {
    && RqPipeOf(w, r) == RqPipeOf(v, r)
    && NodePipeOf(w, r) == NodePipeOf(v, r)
    && w.At(OnList(NodeRq)) == v.At(OnList(NodeRq))
  }

  lemma ViewSame(a: Abs, w: View, r: nat)
    requires Fifo(a, r) && SamePipes(a.view, w, r)
    ensures Fifo(a.(view := w), r)
  {
    hide Oldest, Part;
    var b := a.(view := w);
    assert b.RqPipe(r) == a.RqPipe(r) && b.NodePipe(r) == a.NodePipe(r);
    RqSame(a, b, r);
    NodeSame(a, b, r);
  }

  /** Taking and walking move blocks along a pipe without reordering them. */
  lemma TakeKeepsPipes(v: View, q: nat, r: nat)
    requires v.At(InboxRq(q)) == [] && v.At(WalkRq(q)) == []
    ensures SamePipes(v, v.MoveAll(OnList(Rq(q)), WalkRq(q)), r)
  {
  }

  lemma ShiftKeepsRqPipe(v: View, q: nat, r: nat)
    requires v.At(WalkRq(q)) != []
    ensures SamePipes(v, v.Shift(WalkRq(q), InboxRq(q)), r)
  {
    if r == q {
      var i, w := v.At(InboxRq(q)), v.At(WalkRq(q));
      assert (i + [w[0]]) + w[1..] == i + w;
    }
  }

  lemma ShiftKeepsNodePipe(v: View, q: nat, r: nat)
    requires v.At(WalkNode(q)) != []
    ensures SamePipes(v, v.Shift(WalkNode(q), InboxNode(q)), r)
  {
    if r == q {
      OneAcross(v.At(InboxNode(q)), v.At(WalkNode(q)));
    }
    hide View.Shift;
  }

  lemma OneAcross(i: seq<nat>, w: seq<nat>)
    requires w != []
    ensures (i + [w[0]]) + w[1..] == i + w
  {
  }

  /** The view after an event that only moves blocks. */
  ghost function Moved(v: View, e: Event): View
    requires Movable(v, e)
  {
    match e
    case CutNew(i, o) => v.Put(o, Hand(Sender(i)))
    case AllocCached(i, b) => v.PopTop(Cached(i, b), Hand(Sender(i)))
    case TakeFreed(i, b) => v.MoveAll(OnList(Ret(i, b)), Cached(i, b))
    case BeginFree(q, o) => v.Put(o, Hand(Receiver(q)))
    case PushFree(q, o, l) => v.Push(o, OnList(l))
    case TakeRq(q) => v.MoveAll(OnList(Rq(q)), WalkRq(q))
    case ShiftRq(q) => v.Shift(WalkRq(q), InboxRq(q))
    case ShiftNode(q) => v.Shift(WalkNode(q), InboxNode(q))
    case _ => v
  }

  ghost predicate Movable(v: View, e: Event) {
    match e
    case AllocCached(i, b) => v.At(Cached(i, b)) != []
    case PushFree(q, o, l) => l.Ret?
    case TakeRq(q) => v.At(InboxRq(q)) == [] && v.At(WalkRq(q)) == []
    case ShiftRq(q) => v.At(WalkRq(q)) != []
    case ShiftNode(q) => v.At(WalkNode(q)) != []
    case _ => true
  }

  lemma MovedKeepsPipes(v: View, e: Event, r: nat)
    requires Movable(v, e)
    ensures SamePipes(v, Moved(v, e), r)
  {
    match e
    case TakeRq(q) => TakeKeepsPipes(v, q, r);
    case ShiftRq(q) => ShiftKeepsRqPipe(v, q, r);
    case ShiftNode(q) => ShiftKeepsNodePipe(v, q, r);
    case _ =>
  }

  /** Events that leave the pipes of rank `r` and all logs as they are. */
  lemma QuietFifo(a: Abs, e: Event, r: nat)
    requires Fifo(a, r) && Can(a, e)
    requires !e.Write? && !e.PushSend? && !e.TakeNode? && !e.DeliverRq? && !e.DeliverNode?
    ensures Fifo(Do(a, e), r)
  {
    hide Oldest, Part, RqPipeOf, NodePipeOf, Fifo;
    MovedKeepsPipes(a.view, e, r);
    ViewSame(a, Moved(a.view, e), r);
    assert Do(a, e) == a.(view := Moved(a.view, e));
  }

  lemma WriteFifo(a: Abs, o: nat, m: Msg, r: nat)
    requires Fifo(a, r) && Can(a, Write(o, m))
    requires a.view.Listed(OnList(Rq(r))) && a.view.Listed(InboxRq(r)) && a.view.Listed(WalkRq(r))
    requires a.view.Listed(OnList(NodeRq)) && a.view.Listed(InboxNode(r)) && a.view.Listed(WalkNode(r))
    ensures Fifo(Do(a, Write(o, m)), r)
  {
    hide Oldest, Part;
    OldestFrame(a.pay, o, m, a.RqPipe(r));
    OldestFrame(a.pay, o, m, a.NodePipe(r));
    OldestFrame(a.pay, o, m, a.At(OnList(NodeRq)));
  }

  lemma PushRq(a: Abs, i: nat, o: nat, r: nat)
    requires a.RqFifo(r) && Can(a, PushSend(i, o))
    ensures Do(a, PushSend(i, o)).RqFifo(r)
  {
    hide Oldest;
    var b, l := Do(a, PushSend(i, o)), ListOf(a.Pay(o).dest);
    if l == Rq(r) {
      OldestPush(a.pay, o, a.At(OnList(l)), a.At(InboxRq(r)) + a.At(WalkRq(r)));
    } else {
      RqSame(a, b, r);
    }
  }

  lemma PushNode(a: Abs, i: nat, o: nat, r: nat)
    requires a.NodeRest() && a.NodeFifo(r) && Can(a, PushSend(i, o))
    ensures Do(a, PushSend(i, o)).NodeRest() && Do(a, PushSend(i, o)).NodeFifo(r)
  {
    hide Part;
    var b, l := Do(a, PushSend(i, o)), ListOf(a.Pay(o).dest);
    if l == NodeRq {
      PushNodeRest(a, i, o);
      PartExtends(a.Sent(NodeRq), [a.Pay(o)], a.takers, r);
    }
    NodeSame(a, b, r);
  }

  lemma PushNodeRest(a: Abs, i: nat, o: nat)
    requires a.NodeRest() && Can(a, PushSend(i, o)) && a.Pay(o).dest == ToNode
    ensures Do(a, PushSend(i, o)).NodeRest()
  {
    hide Oldest;
    var s := a.At(OnList(NodeRq));
    OldestPush(a.pay, o, s, []);
    assert s + [] == s && [o] + s + [] == [o] + s;
    assert (a.Sent(NodeRq) + [a.Pay(o)])[|a.takers|..] == a.Sent(NodeRq)[|a.takers|..] + [a.Pay(o)];
  }

  lemma TakeNodeLogs(a: Abs, q: nat, r: nat)
    requires a.NodeRest() && Can(a, TakeNode(q))
    ensures var b := Do(a, TakeNode(q));
            && b.NodeRest()
            && Part(b.Sent(NodeRq), b.takers, r) == Part(a.Sent(NodeRq), a.takers, r)
                                                    + if q == r then Oldest(a.pay, a.At(OnList(NodeRq))) else []
  {
    hide Part;
    var b := Do(a, TakeNode(q));
    OldestLength(a.pay, a.At(OnList(NodeRq)));
    PartTake(a.Sent(NodeRq), a.takers, q, r);
    assert |a.At(OnList(NodeRq))| == |a.Sent(NodeRq)| - |a.takers|;
    assert b.takers == a.takers + seq(|a.Sent(NodeRq)| - |a.takers|, k => q);
    assert b.At(OnList(NodeRq)) == [];
  }

  lemma TakeNodePipe(v: View, q: nat)
    requires v.At(InboxNode(q)) == [] && v.At(WalkNode(q)) == []
    ensures NodePipeOf(v, q) == []
    ensures NodePipeOf(v.MoveAll(OnList(NodeRq), WalkNode(q)), q) == v.At(OnList(NodeRq))
    ensures forall r :: RqPipeOf(v.MoveAll(OnList(NodeRq), WalkNode(q)), r) == RqPipeOf(v, r)
  {
  }

  lemma TakeNodeFifo(a: Abs, q: nat, r: nat)
    requires Fifo(a, r) && Can(a, TakeNode(q))
    ensures Fifo(Do(a, TakeNode(q)), r)
  {
    hide Part, Oldest;
    var b := Do(a, TakeNode(q));
    TakeNodeLogs(a, q, r);
    TakeNodePipe(a.view, q);
    assert b.RqPipe(r) == a.RqPipe(r);
    RqSame(a, b, r);
    if r == q {
      assert Oldest(a.pay, []) == [] by {
        OldestLength(a.pay, []);
      }
      assert a.GotNode(q) + [] == a.GotNode(q);
    } else {
      NodeSame(a, b, r);
    }
  }

  /** Popping the back of an inbox delivers the oldest message of the pipe. */
  lemma DeliverRqPipe(v: View, q: nat)
    requires v.At(InboxRq(q)) != [] && v.At(WalkRq(q)) == []
    ensures var s := RqPipeOf(v, q);
            && s != [] && Last(s) == Last(v.At(InboxRq(q)))
            && RqPipeOf(v.PopBack(InboxRq(q), Held), q) == s[..|s| - 1]
    ensures forall r :: NodePipeOf(v.PopBack(InboxRq(q), Held), r) == NodePipeOf(v, r)
  {
  }

  lemma DeliverNodePipe(v: View, q: nat)
    requires v.At(InboxNode(q)) != [] && v.At(WalkNode(q)) == []
    ensures var s := NodePipeOf(v, q);
            && s != [] && Last(s) == Last(v.At(InboxNode(q)))
            && NodePipeOf(v.PopBack(InboxNode(q), Held), q) == s[..|s| - 1]
    ensures forall r :: RqPipeOf(v.PopBack(InboxNode(q), Held), r) == RqPipeOf(v, r)
  {
  }

  lemma DeliverRqFifo(a: Abs, q: nat, r: nat)
    requires a.RqFifo(r) && Can(a, DeliverRq(q))
    ensures Do(a, DeliverRq(q)).RqFifo(r)
  {
    hide Oldest;
    var b := Do(a, DeliverRq(q));
    if r == q {
      var s := a.RqPipe(q);
      DeliverRqPipe(a.view, q);
      hide RqPipeOf;
      OldestLast(a.pay, s);
      assert b.GotRq(q) == a.GotRq(q) + [PayOf(a.pay, Last(s))];
      assert b.RqPipe(q) == s[..|s| - 1];
    } else {
      RqSame(a, b, r);
    }
  }

  lemma DeliverNodeFifo(a: Abs, q: nat, r: nat)
    requires a.NodeFifo(r) && Can(a, DeliverNode(q))
    ensures Do(a, DeliverNode(q)).NodeFifo(r)
  {
    hide Oldest, Part;
    var b := Do(a, DeliverNode(q));
    if r == q {
      var s := a.NodePipe(q);
      DeliverNodePipe(a.view, q);
      hide NodePipeOf;
      OldestLast(a.pay, s);
      assert b.GotNode(q) == a.GotNode(q) + [PayOf(a.pay, Last(s))];
      assert b.NodePipe(q) == s[..|s| - 1];
    } else {
      NodeSame(a, b, r);
    }
  }

  lemma DeliverRqOthers(a: Abs, q: nat, r: nat)
    requires a.NodeFifo(r) && a.NodeRest() && Can(a, DeliverRq(q))
    ensures Do(a, DeliverRq(q)).NodeFifo(r) && Do(a, DeliverRq(q)).NodeRest()
  {
    hide Oldest, Part, RqPipeOf, NodePipeOf;
    DeliverRqPipe(a.view, q);
    NodeSame(a, Do(a, DeliverRq(q)), r);
  }

  lemma DeliverNodeOthers(a: Abs, q: nat, r: nat)
    requires a.RqFifo(r) && a.NodeRest() && Can(a, DeliverNode(q))
    ensures Do(a, DeliverNode(q)).RqFifo(r) && Do(a, DeliverNode(q)).NodeRest()
  {
    hide Oldest, Part, RqPipeOf, NodePipeOf;
    DeliverNodePipe(a.view, q);
    RqSame(a, Do(a, DeliverNode(q)), r);
  }

  lemma DoFifo(a: Abs, e: Event, r: nat)
    requires Fifo(a, r) && Can(a, e) && !e.Write?
    ensures Fifo(Do(a, e), r)
  {
    hide Oldest, Part, RqPipeOf, NodePipeOf;
    match e
    case PushSend(i, o) => PushRq(a, i, o, r); PushNode(a, i, o, r);
    case TakeNode(q) => TakeNodeFifo(a, q, r);
    case DeliverRq(q) => DeliverRqFifo(a, q, r); DeliverRqOthers(a, q, r);
    case DeliverNode(q) => DeliverNodeFifo(a, q, r); DeliverNodeOthers(a, q, r);
    case _ => QuietFifo(a, e, r);
  }

  lemma DoConsistent(a: Abs, e: Event)
    requires a.view.Consistent() && Can(a, e)
    ensures Do(a, e).view.Consistent()
  {
    var v := a.view;
    match e
    case Nop =>
    case Write(o, m) =>
    case CutNew(i, o) => PutConsistent(v, o, Hand(Sender(i)));
    case AllocCached(i, b) => PopTopConsistent(v, Cached(i, b), Hand(Sender(i)));
    case TakeFreed(i, b) => MoveAllConsistent(v, OnList(Ret(i, b)), Cached(i, b));
    case PushSend(i, o) => PushConsistent(v, o, OnList(ListOf(a.Pay(o).dest)));
    case BeginFree(r, o) => PutConsistent(v, o, Hand(Receiver(r)));
    case PushFree(r, o, l) => PushConsistent(v, o, OnList(l));
    case TakeRq(r) => MoveAllConsistent(v, OnList(Rq(r)), WalkRq(r));
    case TakeNode(r) => MoveAllConsistent(v, OnList(NodeRq), WalkNode(r));
    case ShiftRq(r) => ShiftConsistent(v, WalkRq(r), InboxRq(r));
    case ShiftNode(r) => ShiftConsistent(v, WalkNode(r), InboxNode(r));
    case DeliverRq(r) => PopBackConsistent(v, InboxRq(r), Held);
    case DeliverNode(r) => PopBackConsistent(v, InboxNode(r), Held);
  }

  /** Every event keeps every block in one place and both kinds of queue in
      order. */
  lemma DoKeeps(a: Abs, e: Event)
    requires a.Inv() && Can(a, e)
    ensures Do(a, e).Inv()
  {
    DoConsistent(a, e);
    forall r ensures Fifo(Do(a, e), r) {
      assert a.RqFifo(r) && a.NodeFifo(r);
      if e.Write? {
        WriteFifo(a, e.o, e.m, r);
      } else {
        DoFifo(a, e, r);
      }
    }
    assert Fifo(Do(a, e), 0);
    assert forall r :: Fifo(Do(a, e), r) ==> Do(a, e).RqFifo(r) && Do(a, e).NodeFifo(r);
  }
}
