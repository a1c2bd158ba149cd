/** The work-stealing task queue of include/taskqueue.h: one owner that pushes and
    pops at the tail, any number of thieves that steal at the head. Every access to
    head, tail or a ring slot is a step of its own; steps interleave freely. The
    tail is written by the owner only, so the owner's reads of it are not steps.
    The tasks are numbered in the order they are pushed. */
module TaskQueue {
  import opened Collections

  /** TaskQueueSize */
  const RING: nat := 1024

  // ----- the ring and its steps

  datatype OwnerPc =
    | Resting
    | Pushing             // the task is in its ring slot, the tail not yet raised
    | Lowered(t: int)     // the tail has been lowered to t
    | Compared(t: int, h: int)  // the head has been read; t <= h
    | Raised(h: int)      // the tail is back at h + 1, the head not yet tried
    | Popped(t: int)      // index t is the owner's, its ring slot not yet read

  datatype ThiefPc =
    | Idle
    | SawHead(h: int)
    | SawTail(h: int)     // the tail read was above h
    | Stole(h: int)       // the head was moved past h, the ring slot not yet read

  datatype Ring = Ring(head: int, tail: int, data: seq<nat>, owner: OwnerPc, thieves: map<nat, ThiefPc>,
                       pushes: nat, out: seq<nat>)
  {
    function Thief(k: nat): ThiefPc { if k in thieves then thieves[k] else Idle }
    function With(k: nat, pc: ThiefPc): Ring { this.(thieves := thieves[k := pc]) }
    /** Where the queue really ends: a lowered tail still counts until the owner
        knows that no thief can have the last task. */
    function End(): int { if owner.Lowered? || owner.Compared? then tail + 1 else tail }
  }

  datatype Action =
    | PushWrite | PushTail | PopTail | PopHead | PopReset | PopRaise | PopCas | PopRead
    | StealHead(k: nat) | StealTail(k: nat) | StealCas(k: nat) | StealRead(k: nat)

  function Slot(i: int): (r: nat)
    ensures r < RING
  {
    i % RING
  }

  ghost predicate Enabled(c: Ring, a: Action) {
    |c.data| == RING &&
    match a
    case PushWrite => c.owner.Resting?
    case PushTail => c.owner.Pushing?
    case PopTail => c.owner.Resting?
    case PopHead => c.owner.Lowered?
    case PopReset => c.owner.Compared? && c.owner.t < c.owner.h
    case PopRaise => c.owner.Compared? && c.owner.t >= c.owner.h
    case PopCas => c.owner.Raised?
    case PopRead => c.owner.Popped?
    case StealHead(k) => c.Thief(k).Idle?
    case StealTail(k) => c.Thief(k).SawHead?
    case StealCas(k) => c.Thief(k).SawTail?
    case StealRead(k) => c.Thief(k).Stole?
  }

  ghost function Apply(c: Ring, a: Action): Ring
    requires Enabled(c, a)
  {
    match a
    case PushWrite => c.(data := c.data[Slot(c.tail) := c.pushes], owner := Pushing)
    case PushTail => c.(tail := c.tail + 1, owner := Resting, pushes := c.pushes + 1)
    case PopTail => c.(tail := c.tail - 1, owner := Lowered(c.tail - 1))
    case PopHead =>
      if c.owner.t > c.head then c.(owner := Popped(c.owner.t)) else c.(owner := Compared(c.owner.t, c.head))
    case PopReset => c.(tail := c.owner.h, owner := Resting)
    case PopRaise => c.(tail := c.owner.h + 1, owner := Raised(c.owner.h))
    case PopCas =>
      if c.head == c.owner.h then c.(head := c.head + 1, owner := Popped(c.owner.h)) else c.(owner := Resting)
    case PopRead => c.(out := c.out + [c.data[Slot(c.owner.t)]], owner := Resting)
    case StealHead(k) => c.With(k, SawHead(c.head))
    case StealTail(k) => if c.Thief(k).h >= c.tail then c.With(k, Idle) else c.With(k, SawTail(c.Thief(k).h))
    case StealCas(k) =>
      if c.head == c.Thief(k).h then c.(head := c.head + 1).With(k, Stole(c.Thief(k).h)) else c.With(k, Idle)
    case StealRead(k) => c.(out := c.out + [c.data[Slot(c.Thief(k).h)]]).With(k, Idle)
  }

  ghost predicate Fresh(c: Ring) {
    && c.head == 0 && c.tail == 0 && |c.data| == RING && c.owner.Resting? && c.thieves == map[]
    && c.pushes == 0 && c.out == []
  }

  // ----- what a push would have to check

  /** The slot of the next push holds no task that is queued or stolen but unread. */
  ghost predicate Room(c: Ring) {
    && (forall i: int :: c.head <= i < c.tail ==> Slot(i) != Slot(c.tail))
    && (forall k :: k in c.thieves && c.thieves[k].Stole? ==> Slot(c.thieves[k].h) != Slot(c.tail))
  }

  /** TaskQueuePush writes its slot without looking. These are conditions under which
      it could: that there is room, that the tail is low, that the queue is short.
      The owner can see the last two. */
  datatype Check = RoomLeft | TailBelow(n: nat) | LengthBelow(n: nat)

  ghost predicate Passes(c: Ring, a: Action, check: Check) {
    a.PushWrite? ==>
      match check
      case RoomLeft => Room(c)
      case TailBelow(n) => c.tail < n
      case LengthBelow(n) => c.tail - c.head < n
  }

  // ----- the deque it stands for

  datatype Agent = Owner | Thief(k: nat)

  /** Where a pushed task is. */
  datatype Place = Queued | With(agent: Agent) | Returned

  /** A deque with atomic operations: `held` is what an agent has taken but not yet
      returned to its caller, `got` what callers were given. */
  datatype Deque = Deque(queue: seq<nat>, held: map<Agent, nat>, got: seq<nat>, place: seq<Place>)

  datatype Event = Quiet | Push | TakeBack | TakeFront(k: nat) | Return(agent: Agent)

  ghost predicate Can(d: Deque, e: Event) {
    match e
    case Quiet => true
    case Push => true
    case TakeBack => d.queue != [] && d.queue[|d.queue| - 1] < |d.place| && Owner !in d.held
    case TakeFront(k) => d.queue != [] && d.queue[0] < |d.place| && Agent.Thief(k) !in d.held
    case Return(g) => g in d.held && d.held[g] < |d.place|
  }

  ghost function Do(d: Deque, e: Event): Deque
    requires Can(d, e)
  {
    match e
    case Quiet => d
    case Push => d.(queue := d.queue + [|d.place|], place := d.place + [Queued])
    case TakeBack =>
      var x := d.queue[|d.queue| - 1];
      d.(queue := d.queue[..|d.queue| - 1], held := d.held[Owner := x], place := d.place[x := With(Owner)])
    case TakeFront(k) =>
      var x := d.queue[0];
      d.(queue := d.queue[1..], held := d.held[Agent.Thief(k) := x], place := d.place[x := With(Agent.Thief(k))])
    case Return(g) =>
      d.(got := d.got + [d.held[g]], held := d.held - {g}, place := d.place[d.held[g] := Returned])
  }

  /** Every pushed task is in exactly one place. */
  ghost predicate OnePlace(d: Deque) {
    && Distinct(d.queue) && Distinct(d.got)
    && (forall x: nat :: x in d.queue <==> x < |d.place| && d.place[x] == Queued)
    && (forall x: nat :: x in d.got <==> x < |d.place| && d.place[x] == Returned)
    && (forall g :: g in d.held ==> d.held[g] < |d.place| && d.place[d.held[g]] == With(g))
    && (forall x :: 0 <= x < |d.place| && d.place[x].With? ==>
          d.place[x].agent in d.held && d.held[d.place[x].agent] == x)
  }

  lemma TakeKeeps(d: Deque, g: Agent, x: nat, queue: seq<nat>)
    requires OnePlace(d) && g !in d.held && x in d.queue && Distinct(queue)
    requires forall y :: y in queue <==> y in d.queue && y != x
    ensures OnePlace(d.(queue := queue, held := d.held[g := x], place := d.place[x := With(g)]))
  {
  }

  lemma PushKeeps(d: Deque)
    requires OnePlace(d)
    ensures OnePlace(Do(d, Push))
  {
    var d' := Do(d, Push);
    assert forall x: nat :: x in d'.queue <==> x in d.queue || x == |d.place|;
    assert forall i :: 0 <= i < |d.queue| ==> d.queue[i] in d.queue;
  }

  lemma ReturnKeeps(d: Deque, g: Agent)
    requires OnePlace(d) && Can(d, Return(g))
    ensures OnePlace(Do(d, Return(g)))
  {
    var d' := Do(d, Return(g));
    assert forall x: nat :: x in d'.got <==> x in d.got || x == d.held[g];
  }

  lemma DoKeeps(d: Deque, e: Event)
    requires OnePlace(d) && Can(d, e)
    ensures OnePlace(Do(d, e))
  {
    match e
    case Quiet =>
    case Push => PushKeeps(d);
    case TakeBack =>
      var n := |d.queue| - 1;
      assert d.queue == d.queue[..n] + [d.queue[n]];
      TakeKeeps(d, Owner, d.queue[n], d.queue[..n]);
    case TakeFront(k) =>
      assert d.queue == [d.queue[0]] + d.queue[1..];
      TakeKeeps(d, Agent.Thief(k), d.queue[0], d.queue[1..]);
    case Return(g) => ReturnKeeps(d, g);
  }

  // ----- the ring refines the deque

  ghost predicate QueueOk(c: Ring, queue: seq<nat>) {
    && |c.data| == RING && |queue| == c.End() - c.head
    && (forall i: int :: c.head <= i < c.End() ==> c.data[Slot(i)] == queue[i - c.head])
  }

  ghost predicate OwnerOk(c: Ring, held: map<Agent, nat>) {
    && |c.data| == RING
    && (Owner in held <==> c.owner.Popped?)
    && match c.owner
       case Resting => true
       case Pushing => c.data[Slot(c.tail)] == c.pushes
       case Lowered(t) => t == c.tail
       case Compared(t, h) => t == c.tail && t <= h <= c.head
       case Raised(h) => h + 1 == c.tail && h <= c.head
       case Popped(t) => c.data[Slot(t)] == held[Owner]
  }

  ghost predicate ThiefOk(c: Ring, held: map<Agent, nat>, k: nat) {
    && |c.data| == RING
    && (Agent.Thief(k) in held <==> c.Thief(k).Stole?)
    && match c.Thief(k)
       case Idle => true
       case SawHead(h) => h <= c.head
       case SawTail(h) => h <= c.head && (h == c.head ==> c.head < c.End())
       case Stole(h) => c.data[Slot(h)] == held[Agent.Thief(k)]
  }

  ghost predicate Refines(c: Ring, d: Deque) {
    && QueueOk(c, d.queue) && OwnerOk(c, d.held) && (forall k: nat :: ThiefOk(c, d.held, k))
    && d.got == c.out && |d.place| == c.pushes
  }

  /** The deque operation that a step completes. */
  ghost function EventOf(c: Ring, a: Action): Event
    requires Enabled(c, a)
  {
    match a
    case PushTail => Push
    case PopHead => if c.owner.t > c.head then TakeBack else Quiet
    case PopCas => if c.head == c.owner.h then TakeBack else Quiet
    case PopRead => Return(Owner)
    case StealCas(k) => if c.head == c.Thief(k).h then TakeFront(k) else Quiet
    case StealRead(k) => Return(Agent.Thief(k))
    case _ => Quiet
  }

  lemma Ends(d: Deque)
    requires OnePlace(d) && d.queue != []
    ensures d.queue[0] < |d.place| && d.queue[|d.queue| - 1] < |d.place|
  {
    assert d.queue[0] in d.queue && d.queue[|d.queue| - 1] in d.queue;
  }

  lemma ThievesKeep(c: Ring, c': Ring, held: map<Agent, nat>, held': map<Agent, nat>)
    requires forall k: nat :: ThiefOk(c, held, k)
    requires |c'.data| == RING && c'.thieves == c.thieves && c'.head >= c.head
    requires c'.head == c.head ==> c'.End() >= c.End() || c'.head < c'.End()
    requires forall k :: k in c.thieves && c.thieves[k].Stole? ==>
                           c'.data[Slot(c.thieves[k].h)] == c.data[Slot(c.thieves[k].h)]
    requires forall k: nat :: (Agent.Thief(k) in held' <==> Agent.Thief(k) in held)
                              && (Agent.Thief(k) in held ==> held'[Agent.Thief(k)] == held[Agent.Thief(k)])
    ensures forall k: nat :: ThiefOk(c', held', k)
  {
    forall k: nat ensures ThiefOk(c', held', k) {
      assert ThiefOk(c, held, k);
    }
  }

  lemma PushStep(c: Ring, d: Deque, a: Action)
    requires Refines(c, d) && Enabled(c, a) && (a.PushWrite? || a.PushTail?) && Passes(c, a, RoomLeft)
    ensures Can(d, EventOf(c, a)) && Refines(Apply(c, a), Do(d, EventOf(c, a)))
  {
    hide ThiefOk, OnePlace;
    ThievesKeep(c, Apply(c, a), d.held, d.held);
  }

  lemma PopQuietStep(c: Ring, d: Deque, a: Action)
    requires Refines(c, d) && Enabled(c, a) && (a.PopTail? || a.PopReset? || a.PopRaise?)
    ensures Can(d, EventOf(c, a)) && Refines(Apply(c, a), Do(d, EventOf(c, a)))
  {
    hide ThiefOk, OnePlace;
    ThievesKeep(c, Apply(c, a), d.held, d.held);
  }

  lemma PopHeadStep(c: Ring, d: Deque)
    requires Refines(c, d) && OnePlace(d) && Enabled(c, PopHead)
    ensures Can(d, EventOf(c, PopHead)) && Refines(Apply(c, PopHead), Do(d, EventOf(c, PopHead)))
  {
    if c.owner.t > c.head {
      Ends(d);
    }
    hide ThiefOk, OnePlace;
    ThievesKeep(c, Apply(c, PopHead), d.held, Do(d, EventOf(c, PopHead)).held);
  }

  lemma PopCasStep(c: Ring, d: Deque)
    requires Refines(c, d) && OnePlace(d) && Enabled(c, PopCas)
    ensures Can(d, EventOf(c, PopCas)) && Refines(Apply(c, PopCas), Do(d, EventOf(c, PopCas)))
  {
    if c.head == c.owner.h {
      Ends(d);
    }
    hide ThiefOk, OnePlace;
    ThievesKeep(c, Apply(c, PopCas), d.held, Do(d, EventOf(c, PopCas)).held);
  }

  lemma PopReadStep(c: Ring, d: Deque)
    requires Refines(c, d) && OnePlace(d) && Enabled(c, PopRead)
    ensures Can(d, EventOf(c, PopRead)) && Refines(Apply(c, PopRead), Do(d, EventOf(c, PopRead)))
  {
    hide ThiefOk;
    ThievesKeep(c, Apply(c, PopRead), d.held, Do(d, EventOf(c, PopRead)).held);
  }

  /** A thief's step leaves the others as they were. */
  lemma OthersKeep(c: Ring, c': Ring, held: map<Agent, nat>, held': map<Agent, nat>, k: nat)
    requires forall j: nat :: ThiefOk(c, held, j)
    requires c'.data == c.data && c'.thieves == c.thieves[k := c'.Thief(k)] && c'.head >= c.head
    requires c'.head == c.head ==> c'.End() == c.End()
    requires forall j: nat :: j != k ==>
               && (Agent.Thief(j) in held' <==> Agent.Thief(j) in held)
               && (Agent.Thief(j) in held ==> held'[Agent.Thief(j)] == held[Agent.Thief(j)])
    ensures forall j: nat :: j != k ==> ThiefOk(c', held', j)
  {
    forall j: nat | j != k ensures ThiefOk(c', held', j) {
      assert ThiefOk(c, held, j);
    }
  }

  lemma StealLookStep(c: Ring, d: Deque, a: Action)
    requires Refines(c, d) && Enabled(c, a) && (a.StealHead? || a.StealTail?)
    ensures Can(d, EventOf(c, a)) && Refines(Apply(c, a), Do(d, EventOf(c, a)))
  {
    OthersKeep(c, Apply(c, a), d.held, d.held, a.k);
    assert ThiefOk(c, d.held, a.k);
  }

  lemma StealCasStep(c: Ring, d: Deque, k: nat)
    requires Refines(c, d) && OnePlace(d) && Enabled(c, StealCas(k))
    ensures Can(d, EventOf(c, StealCas(k))) && Refines(Apply(c, StealCas(k)), Do(d, EventOf(c, StealCas(k))))
  {
    assert ThiefOk(c, d.held, k);
    if c.head == c.Thief(k).h {
      Ends(d);
    }
    hide OnePlace;
    OthersKeep(c, Apply(c, StealCas(k)), d.held, Do(d, EventOf(c, StealCas(k))).held, k);
  }

  lemma StealReadStep(c: Ring, d: Deque, k: nat)
    requires Refines(c, d) && OnePlace(d) && Enabled(c, StealRead(k))
    ensures Can(d, EventOf(c, StealRead(k))) && Refines(Apply(c, StealRead(k)), Do(d, EventOf(c, StealRead(k))))
  {
    assert ThiefOk(c, d.held, k);
    OthersKeep(c, Apply(c, StealRead(k)), d.held, Do(d, EventOf(c, StealRead(k))).held, k);
  }

  /** Every step of the ring, a write into a slot still in use apart, is the deque
      operation it completes, or none. */
  lemma StepRefines(c: Ring, d: Deque, a: Action)
    requires Refines(c, d) && OnePlace(d) && Enabled(c, a) && Passes(c, a, RoomLeft)
    ensures Can(d, EventOf(c, a)) && Refines(Apply(c, a), Do(d, EventOf(c, a)))
  {
    hide Refines, OnePlace, Apply, Can, Do, Room;
    match a
    case PushWrite => PushStep(c, d, a);
    case PushTail => PushStep(c, d, a);
    case PopTail => PopQuietStep(c, d, a);
    case PopHead => PopHeadStep(c, d);
    case PopReset => PopQuietStep(c, d, a);
    case PopRaise => PopQuietStep(c, d, a);
    case PopCas => PopCasStep(c, d);
    case PopRead => PopReadStep(c, d);
    case StealHead(k) => StealLookStep(c, d, a);
    case StealTail(k) => StealLookStep(c, d, a);
    case StealCas(k) => StealCasStep(c, d, k);
    case StealRead(k) => StealReadStep(c, d, k);
  }

  // ----- whole runs

  ghost predicate Legal(c: Ring, acts: seq<Action>)
    decreases |acts|, 0
  {
    acts == [] || (Legal(c, acts[..|acts| - 1]) && Enabled(After(c, acts[..|acts| - 1]), acts[|acts| - 1]))
  }

  ghost function After(c: Ring, acts: seq<Action>): Ring
    requires Legal(c, acts)
    decreases |acts|, 1
  {
    if acts == [] then c else Apply(After(c, acts[..|acts| - 1]), acts[|acts| - 1])
  }

  /** A run in which every push passes the check before it writes its slot. */
  ghost predicate Checked(c: Ring, acts: seq<Action>, check: Check)
    decreases |acts|
  {
    && Legal(c, acts)
    && (acts == [] ||
        (Checked(c, acts[..|acts| - 1], check) && Passes(After(c, acts[..|acts| - 1]), acts[|acts| - 1], check)))
  }

  /** The deque that a run of the ring stands for. */
  ghost function Shadow(c: Ring, acts: seq<Action>): (d: Deque)
    requires Fresh(c) && Checked(c, acts, RoomLeft)
    ensures Refines(After(c, acts), d) && OnePlace(d)
    decreases |acts|
  {
    if acts == [] then Deque([], map[], [], [])
    else
      var c0, d0, a := After(c, acts[..|acts| - 1]), Shadow(c, acts[..|acts| - 1]), acts[|acts| - 1];
      StepRefines(c0, d0, a);
      DoKeeps(d0, EventOf(c0, a));
      Do(d0, EventOf(c0, a))
  }

  /** The task is in the ring, between the head and the end of the queue. */
  ghost predicate InRing(c: Ring, x: nat) {
    |c.data| == RING && exists i: int :: c.head <= i < c.End() && c.data[Slot(i)] == x
  }

  /** The owner or a thief has claimed the task and is about to return it. */
  ghost predicate InHand(c: Ring, x: nat) {
    |c.data| == RING &&
    ((c.owner.Popped? && c.data[Slot(c.owner.t)] == x)
     || exists k :: k in c.thieves && c.thieves[k].Stole? && c.data[Slot(c.thieves[k].h)] == x)
  }

  lemma RingIsQueue(c: Ring, d: Deque, x: nat)
    requires Refines(c, d)
    ensures InRing(c, x) <==> x in d.queue
  {
    if x in d.queue {
      var j :| 0 <= j < |d.queue| && d.queue[j] == x;
      assert c.head <= c.head + j < c.End() && c.data[Slot(c.head + j)] == d.queue[j];
    }
  }

  lemma HandIsHeld(c: Ring, d: Deque, x: nat)
    requires Refines(c, d)
    ensures InHand(c, x) <==> exists g :: g in d.held && d.held[g] == x
  {
    if InHand(c, x) {
      if c.owner.Popped? && c.data[Slot(c.owner.t)] == x {
        assert Owner in d.held && d.held[Owner] == x;
      } else {
        var k :| k in c.thieves && c.thieves[k].Stole? && c.data[Slot(c.thieves[k].h)] == x;
        assert ThiefOk(c, d.held, k);
        assert Agent.Thief(k) in d.held && d.held[Agent.Thief(k)] == x;
      }
    }
    if g :| g in d.held && d.held[g] == x {
      match g
      case Owner =>
      case Thief(k) => assert ThiefOk(c, d.held, k);
    }
  }

  /** No task has been returned twice, and every pushed task is either still in the
      ring, or in one agent's hand, or returned - exactly one of them. */
  ghost predicate AllKept(r: Ring) {
    && Distinct(r.out)
    && (forall x: nat :: x < r.pushes <==> x in r.out || InRing(r, x) || InHand(r, x))
    && (forall x: nat ::
          !(x in r.out && InRing(r, x)) && !(x in r.out && InHand(r, x)) && !(InRing(r, x) && InHand(r, x)))
  }

  lemma RefinesKept(r: Ring, d: Deque)
    requires Refines(r, d) && OnePlace(d)
    ensures AllKept(r)
  {
    forall x: nat
      ensures x < r.pushes <==> x in r.out || InRing(r, x) || InHand(r, x)
      ensures !(x in r.out && InRing(r, x)) && !(x in r.out && InHand(r, x)) && !(InRing(r, x) && InHand(r, x))
    {
      RingIsQueue(r, d, x);
      HandIsHeld(r, d, x);
      hide QueueOk, OwnerOk, ThiefOk, InRing, InHand;
      assert x < |d.place| ==> d.place[x].Queued? || d.place[x].With? || d.place[x].Returned?;
    }
  }

  /** Over every run in which no push writes into a slot still in use, all tasks are
      kept. */
  lemma TasksKept(c: Ring, acts: seq<Action>)
    requires Fresh(c) && Checked(c, acts, RoomLeft)
    ensures AllKept(After(c, acts))
  {
    RefinesKept(After(c, acts), Shadow(c, acts));
  }

  /** A pop that gives up finds the queue empty. */
  lemma PopNull(c: Ring, acts: seq<Action>)
    requires Fresh(c) && Checked(c, acts, RoomLeft)
    ensures var r := After(c, acts);
            && (Enabled(r, PopReset) ==> forall x: nat :: !InRing(r, x))
            && (Enabled(r, PopCas) && Apply(r, PopCas).owner.Resting? ==> forall x: nat :: !InRing(r, x))
  {
    var d := Shadow(c, acts);
  }

  /** A steal that gives up finds at most one task, and then the owner is about to
      pop it. */
  lemma StealNull(c: Ring, acts: seq<Action>, k: nat)
    requires Fresh(c) && Checked(c, acts, RoomLeft)
    requires var r := After(c, acts); Enabled(r, StealTail(k)) && Apply(r, StealTail(k)).Thief(k).Idle?
    ensures var r := After(c, acts);
            && r.End() - r.head <= 1
            && (r.End() - r.head == 1 ==> r.owner.Lowered? || r.owner.Compared?)
  {
    var d := Shadow(c, acts);
    assert ThiefOk(After(c, acts), d.held, k);
  }
}
