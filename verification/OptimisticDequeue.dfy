/** The counters by which any number of consumers race for the elements of one
    producer's queue (ExplicitProducer::dequeue and ImplicitProducer::dequeue in
    src/concurrentqueue.h). Each atomic access is one step. Indices are unbounded. */
module OptimisticDequeue {

  /** Where a dequeue stands. */
  datatype Pc =
    | Idle
    | SawTail(t: nat)
    | SawOver(t: nat, o: nat)
    | Chose(o: nat)               // the first comparison held
    | Ticket(o: nat, my: nat)     // dequeueOptimisticCount was raised from my
    | Won(my: nat)                // the second comparison held
    | Lost(my: nat)               // it did not

  /** tailIndex, headIndex, dequeueOptimisticCount, dequeueOvercommit; `taken` is
      the sequence of indices that dequeues have obtained. */
  datatype Counters = Counters(tail: nat, head: nat, optimistic: nat, over: nat, pcs: map<nat, Pc>, taken: seq<nat>)
  {
    function At(k: nat): Pc { if k in pcs then pcs[k] else Idle }
    function With(k: nat, pc: Pc): Counters { this.(pcs := pcs[k := pc]) }
  }

  datatype Action =
    | Enqueue
    | ReadTail(k: nat) | ReadOver(k: nat) | Compare(k: nat) | Raise(k: nat) | Recheck(k: nat)
    | TakeHead(k: nat) | GiveUp(k: nat)

  ghost predicate Enabled(c: Counters, a: Action) {
    match a
    case Enqueue => true
    case ReadTail(k) => c.At(k).Idle?
    case ReadOver(k) => c.At(k).SawTail?
    case Compare(k) => c.At(k).SawOver?
    case Raise(k) => c.At(k).Chose?
    case Recheck(k) => c.At(k).Ticket?
    case TakeHead(k) => c.At(k).Won?
    case GiveUp(k) => c.At(k).Lost?
  }

  ghost function Apply(c: Counters, a: Action): Counters
    requires Enabled(c, a)
  {
    match a
    case Enqueue => c.(tail := c.tail + 1)
    case ReadTail(k) => c.With(k, SawTail(c.tail))
    case ReadOver(k) => c.With(k, SawOver(c.At(k).t, c.over))
    case Compare(k) => if c.optimistic - c.At(k).o < c.At(k).t then c.With(k, Chose(c.At(k).o)) else c.With(k, Idle)
    case Raise(k) => c.(optimistic := c.optimistic + 1).With(k, Ticket(c.At(k).o, c.optimistic))
    case Recheck(k) =>
      if c.At(k).my - c.At(k).o < c.tail then c.With(k, Won(c.At(k).my)) else c.With(k, Lost(c.At(k).my))
    case TakeHead(k) => c.(head := c.head + 1, taken := c.taken + [c.head]).With(k, Idle)
    case GiveUp(k) => c.(over := c.over + 1).With(k, Idle)
  }

  const FRESH := Counters(0, 0, 0, 0, map[], [])

  // ----- the tickets

  /** What became of the value that one increment of dequeueOptimisticCount saw. */
  datatype Fate = Open(k: nat) | Winning(k: nat) | Losing(k: nat) | Took | Counted

  ghost predicate Winner(f: Fate) { f.Winning? || f.Took? }
  ghost predicate Loser(f: Fate) { f.Losing? || f.Counted? }

  ghost function Count(p: Fate -> bool, fs: seq<Fate>): (n: nat)
    ensures n <= |fs|
  {
    if fs == [] then 0 else Count(p, fs[..|fs| - 1]) + (if p(fs[|fs| - 1]) then 1 else 0)
  }

  lemma {:induction false} CountSet(p: Fate -> bool, fs: seq<Fate>, i: nat, f: Fate)
    requires i < |fs|
    ensures Count(p, fs[i := f]) == Count(p, fs) - (if p(fs[i]) then 1 else 0) + (if p(f) then 1 else 0)
    decreases |fs|
  {
    var n := |fs| - 1;
    if i < n {
      CountSet(p, fs[..n], i, f);
      assert fs[i := f][..n] == fs[..n][i := f];
    } else {
      assert fs[i := f][..n] == fs[..n];
    }
  }

  /** Giving up, or a win, only adds losers in a stretch of tickets. */
  lemma {:induction false} CountMore(p: Fate -> bool, fs: seq<Fate>, gs: seq<Fate>)
    requires |fs| == |gs| && forall i :: 0 <= i < |fs| && p(fs[i]) ==> p(gs[i])
    ensures Count(p, fs) <= Count(p, gs)
  {
    if fs != [] {
      CountMore(p, fs[..|fs| - 1], gs[..|gs| - 1]);
    }
  }

  lemma {:induction false} CountBoth(p: Fate -> bool, q: Fate -> bool, fs: seq<Fate>)
    requires forall f: Fate :: !(p(f) && q(f))
    ensures Count(p, fs) + Count(q, fs) <= |fs|
  {
    if fs != [] {
      CountBoth(p, q, fs[..|fs| - 1]);
    }
  }

  lemma {:induction false} CountPrefix(p: Fate -> bool, fs: seq<Fate>, n: nat)
    requires n <= |fs| && forall i :: n <= i < |fs| ==> !p(fs[i])
    ensures Count(p, fs) == Count(p, fs[..n])
    decreases |fs|
  {
    if n < |fs| {
      CountPrefix(p, fs[..|fs| - 1], n);
      assert fs[..|fs| - 1][..n] == fs[..n];
    } else {
      assert fs[..n] == fs;
    }
  }

  ghost predicate WinOk(c: Counters, fs: seq<Fate>, j: nat) {
    j < |fs| && Winner(fs[j]) ==> j + 1 - Count(Loser, fs[..j]) <= c.tail
  }

  ghost predicate PcOk(c: Counters, fs: seq<Fate>, k: nat) {
    match c.At(k)
    case Idle => true
    case SawTail(t) => t <= c.tail
    case SawOver(t, o) => o <= c.over
    case Chose(o) => o <= c.over
    case Ticket(o, my) => my < |fs| && fs[my] == Open(k) && o <= Count(Loser, fs[..my])
    case Won(my) => my < |fs| && fs[my] == Winning(k)
    case Lost(my) => my < |fs| && fs[my] == Losing(k)
  }

  ghost predicate FateOk(c: Counters, fs: seq<Fate>, j: nat) {
    j < |fs| ==>
      match fs[j]
      case Open(k) => c.At(k).Ticket? && c.At(k).my == j
      case Winning(k) => c.At(k) == Won(j)
      case Losing(k) => c.At(k) == Lost(j)
      case Took => true
      case Counted => true
  }

  ghost predicate IsTook(f: Fate) { f.Took? }
  ghost predicate IsCounted(f: Fate) { f.Counted? }

  ghost predicate Inv(c: Counters, fs: seq<Fate>) {
    && |fs| == c.optimistic && Count(IsTook, fs) == c.head && Count(IsCounted, fs) == c.over
    && (forall k: nat :: PcOk(c, fs, k))
    && (forall j: nat :: FateOk(c, fs, j))
    && (forall j: nat :: WinOk(c, fs, j))
    && |c.taken| == c.head && (forall i :: 0 <= i < |c.taken| ==> c.taken[i] == i)
  }

  /** How a step changes the tickets. */
  ghost function Fates(c: Counters, fs: seq<Fate>, a: Action): seq<Fate>
    requires Enabled(c, a) && Inv(c, fs)
  {
    match a
    case Raise(k) => fs + [Open(k)]
    case Recheck(k) =>
      assert PcOk(c, fs, k);
      fs[c.At(k).my := if Apply(c, a).At(k).Won? then Winning(k) else Losing(k)]
    case TakeHead(k) => assert PcOk(c, fs, k); fs[c.At(k).my := Took]
    case GiveUp(k) => assert PcOk(c, fs, k); fs[c.At(k).my := Counted]
    case _ => fs
  }

  lemma {:induction false} CountWithin(p: Fate -> bool, q: Fate -> bool, fs: seq<Fate>)
    requires forall f: Fate :: p(f) ==> q(f)
    ensures Count(p, fs) <= Count(q, fs)
  {
    if fs != [] {
      CountWithin(p, q, fs[..|fs| - 1]);
    }
  }

  lemma LosersKeep(fs: seq<Fate>, gs: seq<Fate>, j: nat)
    requires j <= |fs| <= |gs| && forall i :: 0 <= i < |fs| && Loser(fs[i]) ==> Loser(gs[i])
    ensures Count(Loser, fs[..j]) <= Count(Loser, gs[..j])
  {
    CountMore(Loser, fs[..j], gs[..j]);
  }

  /** The tickets that were won keep their bound; ticket `my` is seen to separately. */
  lemma WinsKeep(c: Counters, c': Counters, fs: seq<Fate>, gs: seq<Fate>, my: nat)
    requires (forall j: nat :: WinOk(c, fs, j)) && c'.tail >= c.tail && WinOk(c', gs, my)
    requires |fs| <= |gs| && forall i :: 0 <= i < |fs| && Loser(fs[i]) ==> Loser(gs[i])
    requires forall i: nat :: i < |gs| && i != my && Winner(gs[i]) ==> i < |fs| && Winner(fs[i])
    ensures forall j: nat :: WinOk(c', gs, j)
  {
    hide Count;
    forall j: nat ensures WinOk(c', gs, j) {
      if j != my && j < |gs| && Winner(gs[j]) {
        assert WinOk(c, fs, j);
        LosersKeep(fs, gs, j);
      }
    }
  }

  /** Another dequeue is not disturbed. */
  lemma PcsKeep(c: Counters, c': Counters, fs: seq<Fate>, gs: seq<Fate>, k: nat)
    requires forall j: nat :: PcOk(c, fs, j)
    requires c'.tail >= c.tail && c'.over >= c.over && forall j: nat :: j != k ==> c'.At(j) == c.At(j)
    requires |fs| <= |gs| && forall i :: 0 <= i < |fs| && Loser(fs[i]) ==> Loser(gs[i])
    requires forall i :: 0 <= i < |fs| ==>
                           fs[i] == gs[i] || fs[i] == Open(k) || fs[i] == Winning(k) || fs[i] == Losing(k)
    ensures forall j: nat :: j != k ==> PcOk(c', gs, j)
  {
    hide Count;
    forall j: nat | j != k ensures PcOk(c', gs, j) {
      assert PcOk(c, fs, j);
      if c.At(j).Ticket? {
        LosersKeep(fs, gs, c.At(j).my);
      }
    }
  }

  /** Steps that only look, and the producer's. */
  lemma LookStep(c: Counters, fs: seq<Fate>, a: Action)
    requires Inv(c, fs) && Enabled(c, a) && (a.Enqueue? || a.ReadTail? || a.ReadOver? || a.Compare?)
    ensures Inv(Apply(c, a), Fates(c, fs, a))
  {
    hide Count;
    var c' := Apply(c, a);
    forall j: nat ensures PcOk(c', fs, j) && FateOk(c', fs, j) && WinOk(c', fs, j) {
      assert PcOk(c, fs, j) && FateOk(c, fs, j) && WinOk(c, fs, j);
    }
  }

  lemma RaiseStep(c: Counters, fs: seq<Fate>, k: nat)
    requires Inv(c, fs) && Enabled(c, Raise(k))
    ensures Inv(Apply(c, Raise(k)), Fates(c, fs, Raise(k)))
  {
    var c', gs := Apply(c, Raise(k)), fs + [Open(k)];
    assert gs[..|fs|] == fs;
    CountWithin(IsCounted, Loser, fs);
    assert PcOk(c, fs, k);
    assert Count(IsTook, gs) == Count(IsTook, fs) && Count(IsCounted, gs) == Count(IsCounted, fs);
    hide Count;
    PcsKeep(c, c', fs, gs, k);
    WinsKeep(c, c', fs, gs, |fs|);
    forall j: nat ensures FateOk(c', gs, j) {
      assert FateOk(c, fs, j);
    }
  }

  lemma TicketStep(c: Counters, fs: seq<Fate>, a: Action, k: nat)
    requires Inv(c, fs) && Enabled(c, a)
    requires a == Recheck(k) || a == TakeHead(k) || a == GiveUp(k)
    ensures Inv(Apply(c, a), Fates(c, fs, a))
  {
    var c', gs := Apply(c, a), Fates(c, fs, a);
    assert PcOk(c, fs, k);
    var my := c.At(k).my;
    CountSet(IsTook, fs, my, gs[my]);
    CountSet(IsCounted, fs, my, gs[my]);
    hide Count;
    assert WinOk(c, fs, my);
    LosersKeep(fs, gs, my);
    PcsKeep(c, c', fs, gs, k);
    hide PcOk, WinOk;
    WinsKeep(c, c', fs, gs, my);
    FatesKeep(c, c', fs, gs, k, my);
    OwnPc(c', gs, k, my);
  }

  /** The other tickets keep their fates. */
  lemma FatesKeep(c: Counters, c': Counters, fs: seq<Fate>, gs: seq<Fate>, k: nat, my: nat)
    requires (forall j: nat :: FateOk(c, fs, j)) && my < |fs| == |gs| && gs == fs[my := gs[my]]
    requires forall j: nat :: j != k ==> c'.At(j) == c.At(j)
    requires (c.At(k).Ticket? || c.At(k).Won? || c.At(k).Lost?) && c.At(k).my == my && FateOk(c', gs, my)
    ensures forall j: nat :: FateOk(c', gs, j)
  {
    forall j: nat ensures FateOk(c', gs, j) {
      assert FateOk(c, fs, j);
    }
  }

  /** The dequeue that moved agrees with its ticket. */
  lemma OwnPc(c: Counters, fs: seq<Fate>, k: nat, my: nat)
    requires my < |fs|
    requires || c.At(k).Idle? || (c.At(k) == Won(my) && fs[my] == Winning(k))
             || (c.At(k) == Lost(my) && fs[my] == Losing(k))
    ensures PcOk(c, fs, k)
  {
  }

  lemma StepKeeps(c: Counters, fs: seq<Fate>, a: Action)
    requires Inv(c, fs) && Enabled(c, a)
    ensures Inv(Apply(c, a), Fates(c, fs, a))
  {
    hide Inv, Apply, Fates;
    match a
    case Enqueue => LookStep(c, fs, a);
    case ReadTail(k) => LookStep(c, fs, a);
    case ReadOver(k) => LookStep(c, fs, a);
    case Compare(k) => LookStep(c, fs, a);
    case Raise(k) => RaiseStep(c, fs, k);
    case Recheck(k) => TicketStep(c, fs, a, k);
    case TakeHead(k) => TicketStep(c, fs, a, k);
    case GiveUp(k) => TicketStep(c, fs, a, k);
  }

  // ----- whole runs

  ghost predicate Legal(acts: seq<Action>)
    decreases |acts|, 0
  {
    acts == [] || (Legal(acts[..|acts| - 1]) && Enabled(After(acts[..|acts| - 1]), acts[|acts| - 1]))
  }

  ghost function After(acts: seq<Action>): Counters
    requires Legal(acts)
    decreases |acts|, 1
  {
    if acts == [] then FRESH else Apply(After(acts[..|acts| - 1]), acts[|acts| - 1])
  }

  ghost function Tickets(acts: seq<Action>): (fs: seq<Fate>)
    requires Legal(acts)
    ensures Inv(After(acts), fs)
    decreases |acts|
  {
    if acts == [] then []
    else
      var c, fs, a := After(acts[..|acts| - 1]), Tickets(acts[..|acts| - 1]), acts[|acts| - 1];
      StepKeeps(c, fs, a);
      Fates(c, fs, a)
  }

  lemma {:induction false} LastWinner(fs: seq<Fate>) returns (n: nat)
    ensures n <= |fs| && (n > 0 ==> Winner(fs[n - 1])) && forall i :: n <= i < |fs| ==> !Winner(fs[i])
  {
    n := |fs|;
    while n > 0 && !Winner(fs[n - 1])
      invariant n <= |fs| && forall i :: n <= i < |fs| ==> !Winner(fs[i])
    {
      n := n - 1;
    }
  }

  /** There are never more winners than elements. */
  lemma WinnersBelowTail(c: Counters, fs: seq<Fate>)
    requires Inv(c, fs)
    ensures Count(Winner, fs) <= c.tail
  {
    var n := LastWinner(fs);
    CountPrefix(Winner, fs, n);
    if n > 0 {
      assert WinOk(c, fs, n - 1);
      assert fs[..n][..n - 1] == fs[..n - 1];
      CountBoth(Winner, Loser, fs[..n]);
    }
  }

  lemma {:induction false} SomeWinning(fs: seq<Fate>, my: nat)
    requires my < |fs| && fs[my].Winning?
    ensures Count(IsTook, fs) < Count(Winner, fs)
  {
    var n := |fs| - 1;
    if my < n {
      SomeWinning(fs[..n], my);
    } else {
      CountWithin(IsTook, Winner, fs[..n]);
    }
  }

  /** The index a dequeue takes is always below the tail: there is an element. */
  lemma TakesAnElement(acts: seq<Action>, k: nat)
    requires Legal(acts) && Enabled(After(acts), TakeHead(k))
    ensures After(acts).head < After(acts).tail
  {
    var c, fs := After(acts), Tickets(acts);
    assert PcOk(c, fs, k);
    SomeWinning(fs, c.At(k).my);
    WinnersBelowTail(c, fs);
  }

  /** Over every run the indices taken are 0, 1, 2, ... each once, and none reaches
      the tail. */
  lemma IndicesDistinct(acts: seq<Action>)
    requires Legal(acts)
    ensures var c := After(acts);
            && |c.taken| == c.head <= c.tail
            && (forall i, j :: 0 <= i < j < |c.taken| ==> c.taken[i] != c.taken[j])
            && (forall i :: 0 <= i < |c.taken| ==> c.taken[i] < c.tail)
  {
    var c, fs := After(acts), Tickets(acts);
    CountWithin(IsTook, Winner, fs);
    WinnersBelowTail(c, fs);
  }

  lemma {:induction false} AllSettled(fs: seq<Fate>)
    requires forall i :: 0 <= i < |fs| ==> fs[i].Took? || fs[i].Counted?
    ensures |fs| == Count(IsTook, fs) + Count(IsCounted, fs)
  {
    if fs != [] {
      AllSettled(fs[..|fs| - 1]);
    }
  }

  ghost predicate Quiescent(c: Counters) {
    forall k: nat :: c.At(k).Idle? || c.At(k).SawTail? || c.At(k).SawOver? || c.At(k).Chose?
  }

  /** When no dequeue has raised dequeueOptimisticCount without finishing, headIndex
      is dequeueOptimisticCount minus dequeueOvercommit. */
  lemma CountersSettle(acts: seq<Action>)
    requires Legal(acts) && Quiescent(After(acts))
    ensures var c := After(acts); c.head == c.optimistic - c.over
  {
    var c, fs := After(acts), Tickets(acts);
    forall i | 0 <= i < |fs| ensures fs[i].Took? || fs[i].Counted? {
      assert FateOk(c, fs, i);
    }
    AllSettled(fs);
  }

  /** So a dequeue that then runs alone takes the element at the head if there is
      one, and reports an empty queue if there is none. */
  lemma LoneDequeue(acts: seq<Action>, k: nat)
    requires Legal(acts) && Quiescent(After(acts)) && After(acts).At(k).Idle?
    ensures var c := After(acts);
            var c2 := Apply(Apply(c, ReadTail(k)), ReadOver(k));
            if c.head < c.tail then
              && Enabled(Apply(c2, Compare(k)), Raise(k))
              && var c4 := Apply(Apply(c2, Compare(k)), Raise(k));
              && Enabled(Apply(c4, Recheck(k)), TakeHead(k))
              && Apply(Apply(c4, Recheck(k)), TakeHead(k)).taken == c.taken + [c.head]
            else Apply(c2, Compare(k)).At(k).Idle?
  {
    hide Tickets;
    CountersSettle(acts);
  }

  ghost function Enqueues(acts: seq<Action>): nat {
    if acts == [] then 0 else Enqueues(acts[..|acts| - 1]) + if acts[|acts| - 1].Enqueue? then 1 else 0
  }

  /** The tail counts the elements enqueued, which no dequeue delays. */
  lemma {:induction false} TailIsEnqueues(acts: seq<Action>)
    requires Legal(acts)
    ensures After(acts).tail == Enqueues(acts) && Legal(acts + [Enqueue])
    decreases |acts|
  {
    assert (acts + [Enqueue])[..|acts|] == acts;
    if acts != [] {
      TailIsEnqueues(acts[..|acts| - 1]);
    }
  }
}
