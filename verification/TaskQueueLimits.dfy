/** When the task queue loses tasks: exactly when a push writes into a slot still in
    use, what the owner could check to prevent that, and what would not be enough. */
module TaskQueueLimits {
  import opened Collections
  import opened TaskQueue

  // ----- one write

  /** A task in the slot that is written is in one place before and in none after. */
  lemma WriteLoses(c: Ring, d: Deque)
    requires Refines(c, d) && OnePlace(d) && Enabled(c, PushWrite) && !Room(c)
    ensures var x := c.data[Slot(c.tail)]; var r := Apply(c, PushWrite);
            x < r.pushes && x !in r.out && !InRing(r, x) && !InHand(r, x)
  {
    var x, r := c.data[Slot(c.tail)], Apply(c, PushWrite);
    RefinesKept(c, d);
    if i: int :| c.head <= i < c.tail && Slot(i) == Slot(c.tail) {
      QueuedOnce(c, d, i, r);
    } else {
      var k :| k in c.thieves && c.thieves[k].Stole? && Slot(c.thieves[k].h) == Slot(c.tail);
      HeldOnce(c, d, k, r);
    }
  }

  lemma QueuedOnce(c: Ring, d: Deque, i: int, r: Ring)
    requires Refines(c, d) && OnePlace(d) && AllKept(c) && Enabled(c, PushWrite) && r == Apply(c, PushWrite)
    requires c.head <= i < c.tail && Slot(i) == Slot(c.tail)
    ensures var x := c.data[Slot(c.tail)]; x < r.pushes && x !in r.out && !InRing(r, x) && !InHand(r, x)
  {
    hide OnePlace, OwnerOk, ThiefOk, Slot;
    var x := c.data[Slot(c.tail)];
    assert InRing(c, x);
    if InRing(r, x) {
      var j: int :| r.head <= j < r.End() && r.data[Slot(j)] == x;
      assert d.queue[j - c.head] == x == d.queue[i - c.head];
      SameIndex(d, i - c.head, j - c.head);
    }
    if InHand(r, x) {
      StillInHand(c, r, x);
    }
  }

  lemma SameIndex(d: Deque, i: nat, j: nat)
    requires OnePlace(d) && i < |d.queue| && j < |d.queue| && d.queue[i] == d.queue[j]
    ensures i == j
  {
    assert !(i < j) && !(j < i);
  }

  /** What is in a hand after the write was there before. */
  lemma StillInHand(c: Ring, r: Ring, x: nat)
    requires Enabled(c, PushWrite) && r == Apply(c, PushWrite) && x != c.pushes && InHand(r, x)
    ensures InHand(c, x)
  {
    hide Slot;
  }

  lemma StillInRing(c: Ring, r: Ring, x: nat)
    requires Enabled(c, PushWrite) && r == Apply(c, PushWrite) && x != c.pushes && InRing(r, x)
    ensures InRing(c, x)
  {
    hide Slot;
  }

  lemma HeldOnce(c: Ring, d: Deque, k: nat, r: Ring)
    requires Refines(c, d) && OnePlace(d) && AllKept(c) && Enabled(c, PushWrite) && r == Apply(c, PushWrite)
    requires k in c.thieves && c.thieves[k].Stole? && Slot(c.thieves[k].h) == Slot(c.tail)
    ensures var x := c.data[Slot(c.tail)]; x < r.pushes && x !in r.out && !InRing(r, x) && !InHand(r, x)
  {
    hide OnePlace, Slot;
    var x := c.data[Slot(c.tail)];
    assert InHand(c, x);
    if InRing(r, x) {
      StillInRing(c, r, x);
    }
    if InHand(r, x) {
      var j :| j in r.thieves && r.thieves[j].Stole? && r.data[Slot(r.thieves[j].h)] == x;
      assert ThiefOk(c, d.held, k) && ThiefOk(c, d.held, j);
      SameHand(d, k, j);
    }
  }

  lemma SameHand(d: Deque, j: nat, k: nat)
    requires OnePlace(d) && Agent.Thief(j) in d.held && Agent.Thief(k) in d.held
    requires d.held[Agent.Thief(j)] == d.held[Agent.Thief(k)]
    ensures j == k
  {
    assert d.place[d.held[Agent.Thief(j)]] == Place.With(Agent.Thief(j));
    assert d.place[d.held[Agent.Thief(k)]] == Place.With(Agent.Thief(k));
  }

  /** The exact condition of one push: with all kept so far, the write of its slot
      keeps them all if and only if there is room. */
  lemma WriteKeepsIff(c: Ring, acts: seq<Action>)
    requires Fresh(c) && Checked(c, acts, RoomLeft) && After(c, acts).owner.Resting?
    ensures Enabled(After(c, acts), PushWrite)
    ensures AllKept(Apply(After(c, acts), PushWrite)) <==> Room(After(c, acts))
  {
    var r, d := After(c, acts), Shadow(c, acts);
    hide OnePlace, InRing, InHand, Room, Checked, After, Legal, Shadow;
    if Room(r) {
      StepRefines(r, d, PushWrite);
      RefinesKept(Apply(r, PushWrite), Do(d, Quiet));
    } else {
      WriteLoses(r, d);
    }
  }

  // ----- whole runs

  lemma Snoc(c: Ring, acts: seq<Action>, a: Action, check: Check)
    requires Checked(c, acts, check) && Enabled(After(c, acts), a) && Passes(After(c, acts), a, check)
    ensures Checked(c, acts + [a], check) && After(c, acts + [a]) == Apply(After(c, acts), a)
  {
    hide Enabled, Apply, Passes;
    assert (acts + [a])[..|acts|] == acts;
  }

  /** At every point of the run all tasks are kept. */
  ghost predicate KeptThroughout(c: Ring, acts: seq<Action>)
    requires Legal(c, acts)
    decreases |acts|
  {
    AllKept(After(c, acts)) && (acts == [] || KeptThroughout(c, acts[..|acts| - 1]))
  }

  /** The exact condition over runs of the code as it is: the tasks are kept
      throughout if and only if every push finds room. */
  lemma {:induction false} KeptIff(c: Ring, acts: seq<Action>)
    requires Fresh(c) && Legal(c, acts)
    ensures KeptThroughout(c, acts) <==> Checked(c, acts, RoomLeft)
    decreases |acts|
  {
    hide AllKept, Room, Enabled, Apply;
    if Checked(c, acts, RoomLeft) {
      TasksKept(c, acts);
    }
    if acts == [] {
    } else {
      var n := |acts| - 1;
      KeptIff(c, acts[..n]);
      if Checked(c, acts[..n], RoomLeft) && acts[n].PushWrite? {
        WriteRests(After(c, acts[..n]));
        WriteKeepsIff(c, acts[..n]);
      }
    }
  }

  lemma WriteRests(c: Ring)
    requires Enabled(c, PushWrite)
    ensures c.owner.Resting?
  {
  }

  /** A check is safe if all runs whose pushes pass it keep their tasks. */
  ghost predicate Safe(check: Check) {
    forall c, acts :: Fresh(c) && Checked(c, acts, check) ==> AllKept(After(c, acts))
  }

  // ----- a low tail is enough

  /** Indices are not negative, and what thieves have claimed is behind the head. */
  ghost predicate IndicesOk(c: Ring) {
    c.head >= 0 && forall k :: k in c.thieves && c.thieves[k].Stole? ==> 0 <= c.thieves[k].h < c.head
  }

  lemma IndicesStay(c: Ring, a: Action)
    requires IndicesOk(c) && Enabled(c, a)
    ensures IndicesOk(Apply(c, a))
  {
    hide Slot;
  }

  lemma LowTailHasRoom(c: Ring)
    requires IndicesOk(c) && c.head <= c.tail < RING
    ensures Room(c)
  {
  }

  lemma {:induction false} LowTailRun(c: Ring, acts: seq<Action>, n: nat)
    requires Fresh(c) && Checked(c, acts, TailBelow(n)) && n <= RING
    ensures Checked(c, acts, RoomLeft) && IndicesOk(After(c, acts))
    decreases |acts|
  {
    hide Room, Enabled, Apply, IndicesOk;
    if acts == [] {
      FreshIndices(c);
    } else {
      var m := |acts| - 1;
      var r := After(c, acts[..m]);
      LowTailRun(c, acts[..m], n);
      IndicesStay(r, acts[m]);
      if acts[m].PushWrite? {
        WriteRests(r);
        RestingOrder(c, acts[..m]);
        LowTailHasRoom(r);
      }
    }
  }

  lemma FreshIndices(c: Ring)
    requires Fresh(c)
    ensures IndicesOk(c)
  {
  }

  lemma RestingOrder(c: Ring, acts: seq<Action>)
    requires Fresh(c) && Checked(c, acts, RoomLeft) && After(c, acts).owner.Resting?
    ensures After(c, acts).head <= After(c, acts).tail
  {
    var d := Shadow(c, acts);
    hide OnePlace, OwnerOk, ThiefOk, Checked, After, Legal, Shadow;
  }

  // ----- the ring overflows

  function Pushes(n: nat): seq<Action> {
    if n == 0 then [] else Pushes(n - 1) + [PushWrite] + [PushTail]
  }

  /** One whole push. */
  lemma PushOne(c: Ring, acts: seq<Action>, check: Check)
    requires Checked(c, acts, check)
    requires var r := After(c, acts); |r.data| == RING && r.owner.Resting? && Passes(r, PushWrite, check)
    ensures Checked(c, acts + [PushWrite] + [PushTail], check)
    ensures var r := After(c, acts);
            After(c, acts + [PushWrite] + [PushTail]) ==
            r.(data := r.data[Slot(r.tail) := r.pushes], tail := r.tail + 1, pushes := r.pushes + 1)
  {
    hide Checked, Legal, After, Room, Slot;
    CheckedLegal(c, acts, check);
    Snoc(c, acts, PushWrite, check);
    CheckedLegal(c, acts + [PushWrite], check);
    Snoc(c, acts + [PushWrite], PushTail, check);
  }

  lemma CheckedLegal(c: Ring, acts: seq<Action>, check: Check)
    requires Checked(c, acts, check)
    ensures Legal(c, acts)
  {
  }

  /** Only pushes so far: task `i` is in slot `i`. */
  ghost predicate Filled(c: Ring, n: nat) {
    && c.head == 0 && c.tail == n == c.pushes <= RING && |c.data| == RING
    && c.owner.Resting? && c.thieves == map[] && c.out == []
    && (forall i :: 0 <= i < n ==> c.data[i] == i)
  }

  lemma {:induction false} FillRing(c: Ring, n: nat, bound: nat)
    requires Fresh(c) && n <= RING && n <= bound
    ensures Checked(c, Pushes(n), TailBelow(bound)) && Filled(After(c, Pushes(n)), n)
  {
    hide Legal, After, Room;
    if n == 0 {
      EmptyRun(c, TailBelow(bound));
    } else {
      FillRing(c, n - 1, bound);
      hide Checked;
      CheckedLegal(c, Pushes(n - 1), TailBelow(bound));
      PushOne(c, Pushes(n - 1), TailBelow(bound));
    }
  }

  lemma EmptyRun(c: Ring, check: Check)
    ensures Checked(c, [], check) && After(c, []) == c
  {
  }

  ghost predicate Lost(r: Ring, x: nat) {
    x < r.pushes && x !in r.out && !InRing(r, x) && !InHand(r, x)
  }

  lemma LostNotKept(r: Ring, x: nat)
    requires Lost(r, x)
    ensures !AllKept(r)
  {
    hide InRing, InHand;
  }

  /** On a full ring the next write goes over the first task. */
  lemma FullLoses(c: Ring)
    requires Filled(c, RING)
    ensures Enabled(c, PushWrite) && Lost(Apply(c, PushWrite), 0)
  {
    var r := Apply(c, PushWrite);
    assert r.data[0] == RING;
    assert forall i: int :: 0 <= i < RING ==> Slot(i) == i;
  }

  /** The 1025th push without a pop or a steal: task 0 is gone. */
  lemma Overflow(c: Ring, bound: nat) returns (acts: seq<Action>)
    requires Fresh(c) && bound > RING
    ensures Checked(c, acts, TailBelow(bound)) && Lost(After(c, acts), 0)
  {
    hide Checked, Legal, After, Lost, Pushes;
    var n: nat := RING;
    FillRing(c, n, bound);
    CheckedLegal(c, Pushes(n), TailBelow(bound));
    FullLoses(After(c, Pushes(n)));
    Snoc(c, Pushes(n), PushWrite, TailBelow(bound));
    acts := Pushes(n) + [PushWrite];
    CheckedLegal(c, acts, TailBelow(bound));
  }

  const EMPTY_RING := Ring(0, 0, seq(RING, i => 0), Resting, map[], 0, [])

  /** A bound on the tail is safe if and only if it is at most the size of the
      ring. */
  lemma TailIff(n: nat)
    ensures Safe(TailBelow(n)) <==> n <= RING
  {
    hide AllKept, Lost, Room;
    if n <= RING {
      forall c, acts | Fresh(c) && Checked(c, acts, TailBelow(n)) ensures AllKept(After(c, acts)) {
        LowTailRun(c, acts, n);
        TasksKept(c, acts);
      }
    } else {
      var acts := Overflow(EMPTY_RING, n);
      CheckedLegal(EMPTY_RING, acts, TailBelow(n));
      LostNotKept(After(EMPTY_RING, acts), 0);
    }
  }

  // ----- a short queue is not

  /** A thief's steal up to its claim. */
  lemma Claims(c: Ring, acts: seq<Action>, k: nat, check: Check)
    requires Checked(c, acts, check)
    requires var r := After(c, acts); |r.data| == RING && r.Thief(k).Idle? && r.head < r.tail
    ensures Checked(c, acts + [StealHead(k)] + [StealTail(k)] + [StealCas(k)], check)
    ensures var r := After(c, acts);
            After(c, acts + [StealHead(k)] + [StealTail(k)] + [StealCas(k)]) ==
            r.(head := r.head + 1, thieves := r.thieves[k := Stole(r.head)])
  {
    hide Checked, Legal, After, Room;
    var a1 := acts + [StealHead(k)];
    var a2 := a1 + [StealTail(k)];
    CheckedLegal(c, acts, check);
    Snoc(c, acts, StealHead(k), check);
    CheckedLegal(c, a1, check);
    Snoc(c, a1, StealTail(k), check);
    CheckedLegal(c, a2, check);
    Snoc(c, a2, StealCas(k), check);
  }

  /** A whole steal. */
  lemma StealOne(c: Ring, acts: seq<Action>, k: nat, check: Check)
    requires Checked(c, acts, check)
    requires var r := After(c, acts); |r.data| == RING && r.Thief(k).Idle? && r.head < r.tail
    ensures Checked(c, acts + [StealHead(k)] + [StealTail(k)] + [StealCas(k)] + [StealRead(k)], check)
    ensures var r := After(c, acts);
            After(c, acts + [StealHead(k)] + [StealTail(k)] + [StealCas(k)] + [StealRead(k)]) ==
            r.(head := r.head + 1, thieves := r.thieves[k := Idle], out := r.out + [r.data[Slot(r.head)]])
  {
    hide Checked, Legal, After, Room, Slot;
    var a3 := acts + [StealHead(k)] + [StealTail(k)] + [StealCas(k)];
    CheckedLegal(c, acts, check);
    Claims(c, acts, k, check);
    CheckedLegal(c, a3, check);
    Snoc(c, a3, StealRead(k), check);
  }

  /** A steal with no other thread in between that finds nothing: the queue is
      empty. */
  lemma StealNone(c: Ring, acts: seq<Action>, k: nat, check: Check)
    requires Checked(c, acts, check)
    requires var r := After(c, acts); |r.data| == RING && r.Thief(k).Idle? && r.head >= r.tail
    ensures Checked(c, acts + [StealHead(k)] + [StealTail(k)], check)
    ensures var r := After(c, acts);
            After(c, acts + [StealHead(k)] + [StealTail(k)]) == r.(thieves := r.thieves[k := Idle])
  {
    hide Checked, Legal, After, Room, Slot;
    CheckedLegal(c, acts, check);
    Snoc(c, acts, StealHead(k), check);
    CheckedLegal(c, acts + [StealHead(k)], check);
    Snoc(c, acts + [StealHead(k)], StealTail(k), check);
  }

  /** The first two steps of a pop. */
  lemma PopLooks(c: Ring, acts: seq<Action>, check: Check)
    requires Checked(c, acts, check) && After(c, acts).owner.Resting? && |After(c, acts).data| == RING
    ensures Checked(c, acts + [PopTail] + [PopHead], check)
    ensures var r := After(c, acts);
            After(c, acts + [PopTail] + [PopHead]) ==
            r.(tail := r.tail - 1,
               owner := if r.tail - 1 > r.head then Popped(r.tail - 1) else Compared(r.tail - 1, r.head))
  {
    hide Checked, Legal, After, Room, Slot;
    CheckedLegal(c, acts, check);
    Snoc(c, acts, PopTail, check);
    CheckedLegal(c, acts + [PopTail], check);
    Snoc(c, acts + [PopTail], PopHead, check);
  }

  /** The last three steps when there was one task. */
  lemma PopLast(c: Ring, acts: seq<Action>, check: Check)
    requires Checked(c, acts, check) && |After(c, acts).data| == RING
    requires After(c, acts).owner == Compared(After(c, acts).head, After(c, acts).head)
    ensures Checked(c, acts + [PopRaise] + [PopCas] + [PopRead], check)
    ensures var r := After(c, acts);
            After(c, acts + [PopRaise] + [PopCas] + [PopRead]) ==
            r.(head := r.head + 1, tail := r.head + 1, owner := Resting, out := r.out + [r.data[Slot(r.head)]])
  {
    hide Checked, Legal, After, Room, Slot;
    CheckedLegal(c, acts, check);
    Snoc(c, acts, PopRaise, check);
    CheckedLegal(c, acts + [PopRaise], check);
    Snoc(c, acts + [PopRaise], PopCas, check);
    CheckedLegal(c, acts + [PopRaise] + [PopCas], check);
    Snoc(c, acts + [PopRaise] + [PopCas], PopRead, check);
  }

  /** A pop with no thief in between returns the newest task, also when it is the
      last one. */
  lemma PopOne(c: Ring, acts: seq<Action>, check: Check) returns (more: seq<Action>)
    requires Checked(c, acts, check)
    requires var r := After(c, acts); |r.data| == RING && r.owner.Resting? && r.head < r.tail
    ensures Checked(c, acts + more, check)
    ensures var r, r' := After(c, acts), After(c, acts + more);
            && r' == r.(out := r.out + [r.data[Slot(r.tail - 1)]], head := r'.head, tail := r'.tail)
            && r'.tail - r'.head == r.tail - r.head - 1
  {
    hide Checked, Legal, After, Room, Slot;
    CheckedLegal(c, acts, check);
    PopLooks(c, acts, check);
    var two := acts + [PopTail] + [PopHead];
    CheckedLegal(c, two, check);
    if After(c, two).owner.Popped? {
      Snoc(c, two, PopRead, check);
      more := [PopTail] + [PopHead] + [PopRead];
      assert acts + more == two + [PopRead];
    } else {
      PopLast(c, two, check);
      more := [PopTail] + [PopHead] + [PopRaise] + [PopCas] + [PopRead];
      assert acts + more == two + [PopRaise] + [PopCas] + [PopRead];
    }
  }

  /** A pop of an empty queue leaves it as it was. */
  lemma PopNone(c: Ring, acts: seq<Action>, check: Check)
    requires Checked(c, acts, check)
    requires var r := After(c, acts); |r.data| == RING && r.owner.Resting? && r.head == r.tail
    ensures Checked(c, acts + [PopTail] + [PopHead] + [PopReset], check)
    ensures After(c, acts + [PopTail] + [PopHead] + [PopReset]) == After(c, acts)
  {
    hide Checked, Legal, After, Room, Slot;
    CheckedLegal(c, acts, check);
    PopLooks(c, acts, check);
    CheckedLegal(c, acts + [PopTail] + [PopHead], check);
    Snoc(c, acts + [PopTail] + [PopHead], PopReset, check);
  }

  /** Thief 0 stops between its claim and its read of the first task; then `n` times
      the owner pushes a task and thief 1 steals it. */
  function SlowThief(n: nat): seq<Action> {
    if n == 0 then [PushWrite] + [PushTail] + [StealHead(0)] + [StealTail(0)] + [StealCas(0)]
    else SlowThief(n - 1) + [PushWrite] + [PushTail] + [StealHead(1)] + [StealTail(1)] + [StealCas(1)] + [StealRead(1)]
  }

  ghost predicate Behind(c: Ring, n: nat) {
    && c.head == c.tail == c.pushes == n + 1 && n < RING && |c.data| == RING && c.data[0] == 0
    && c.owner.Resting? && 0 in c.thieves && c.thieves[0] == Stole(0)
    && (forall k :: k in c.thieves ==> k == 0 || c.thieves[k] == Idle)
    && 0 !in c.out
  }

  lemma BehindStart(c: Ring, check: Check)
    requires Fresh(c) && check.LengthBelow? && check.n > 0
    ensures Checked(c, SlowThief(0), check) && Behind(After(c, SlowThief(0)), 0)
  {
    hide Checked, Legal, After, Room;
    EmptyRun(c, check);
    CheckedLegal(c, [], check);
    PushOne(c, [], check);
    assert [] + [PushWrite] == [PushWrite];
    var push := [PushWrite] + [PushTail];
    CheckedLegal(c, push, check);
    Claims(c, push, 0, check);
  }

  lemma BehindStep(c: Ring, n: nat, check: Check)
    requires check.LengthBelow? && check.n > 0 && n + 1 < RING
    requires Checked(c, SlowThief(n), check) && Behind(After(c, SlowThief(n)), n)
    ensures Checked(c, SlowThief(n + 1), check) && Behind(After(c, SlowThief(n + 1)), n + 1)
  {
    hide Checked, Legal, After, Room;
    var acts := SlowThief(n);
    CheckedLegal(c, acts, check);
    PushOne(c, acts, check);
    var push := acts + [PushWrite] + [PushTail];
    CheckedLegal(c, push, check);
    StealOne(c, push, 1, check);
  }

  lemma {:induction false} BehindRun(c: Ring, n: nat, check: Check)
    requires Fresh(c) && check.LengthBelow? && check.n > 0 && n < RING
    ensures Checked(c, SlowThief(n), check) && Behind(After(c, SlowThief(n)), n)
  {
    hide Checked, Legal, After, Behind, SlowThief;
    if n == 0 {
      BehindStart(c, check);
    } else {
      BehindRun(c, n - 1, check);
      BehindStep(c, n - 1, check);
    }
  }

  lemma BehindLoses(c: Ring)
    requires Behind(c, RING - 1)
    ensures Enabled(c, PushWrite) && Lost(Apply(c, PushWrite), 0)
  {
    assert Slot(RING) == 0 && Slot(0) == 0;
  }

  /** The push that comes round to the slow thief's slot writes over its task, with
      the queue empty each time something was pushed. */
  lemma Overtaken(c: Ring, check: Check) returns (acts: seq<Action>)
    requires Fresh(c) && check.LengthBelow? && check.n > 0
    ensures Checked(c, acts, check) && Lost(After(c, acts), 0)
  {
    hide Checked, Legal, After, Lost, SlowThief;
    var n: nat := RING - 1;
    BehindRun(c, n, check);
    CheckedLegal(c, SlowThief(n), check);
    BehindLoses(After(c, SlowThief(n)));
    Snoc(c, SlowThief(n), PushWrite, check);
    acts := SlowThief(n) + [PushWrite];
    CheckedLegal(c, acts, check);
  }

  /** No bound on the length of the queue is safe, unless it forbids every push. */
  lemma LengthIff(n: nat)
    ensures Safe(LengthBelow(n)) <==> n == 0
  {
    hide AllKept, Lost, Room;
    if n == 0 {
      forall c, acts | Fresh(c) && Checked(c, acts, LengthBelow(0)) ensures AllKept(After(c, acts)) {
        NoPushes(c, acts);
        TasksKept(c, acts);
      }
    } else {
      var acts := Overtaken(EMPTY_RING, LengthBelow(n));
      CheckedLegal(EMPTY_RING, acts, LengthBelow(n));
      LostNotKept(After(EMPTY_RING, acts), 0);
    }
  }

  lemma {:induction false} NoPushes(c: Ring, acts: seq<Action>)
    requires Fresh(c) && Checked(c, acts, LengthBelow(0))
    ensures Checked(c, acts, RoomLeft)
    decreases |acts|
  {
    hide Room, Enabled, Apply;
    if acts != [] {
      var m := |acts| - 1;
      NoPushes(c, acts[..m]);
      if acts[m].PushWrite? {
        WriteRests(After(c, acts[..m]));
        RestingOrder(c, acts[..m]);
      }
    }
  }
}
