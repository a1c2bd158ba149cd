/** The reusable barrier of src/barrier.h: any number of threads, any number of
    rounds, every access to `waiting` and `step` a step of its own. */
module Barrier {
  import opened Collections

  datatype Pc =
    | Out                // not in the barrier
    | Loaded(m: nat)     // step has been read
    | Last(m: nat)       // this thread's increment made waiting equal thread_num_
    | Reset(m: nat)      // it has set waiting back to 0
    | Spin(m: nat)       // waiting for step to leave m

  /** `arrived` and `left` count the rounds a thread has arrived in and left. */
  datatype Thread = Thread(pc: Pc, arrived: nat, left: nat)

  datatype State = State(threads: seq<Thread>, waiting: nat, step: nat)
  {
    function With(t: nat, th: Thread): State
      requires t < |threads|
    {
      this.(threads := threads[t := th])
    }
  }

  datatype Action = LoadStep(t: nat) | Increment(t: nat) | ResetWaiting(t: nat) | RaiseStep(t: nat) | Leave(t: nat)

  ghost predicate Enabled(s: State, a: Action) {
    && a.t < |s.threads|
    && match a
       case LoadStep(t) => s.threads[t].pc.Out?
       case Increment(t) => s.threads[t].pc.Loaded?
       case ResetWaiting(t) => s.threads[t].pc.Last?
       case RaiseStep(t) => s.threads[t].pc.Reset?
       case Leave(t) => s.threads[t].pc.Spin? && s.threads[t].pc.m != s.step
  }

  ghost function Apply(s: State, a: Action): State
    requires Enabled(s, a)
  {
    var th := s.threads[a.t];
    match a
    case LoadStep(t) => s.With(t, th.(pc := Loaded(s.step)))
    case Increment(t) =>
      var full := s.waiting + 1 == |s.threads|;
      s.(waiting := s.waiting + 1)
       .With(t, Thread(if full then Last(th.pc.m) else Spin(th.pc.m), th.arrived + 1, th.left))
    case ResetWaiting(t) => s.(waiting := 0).With(t, th.(pc := Reset(th.pc.m)))
    case RaiseStep(t) => s.(step := s.step + 1).With(t, th.(pc := Spin(th.pc.m)))
    case Leave(t) => s.With(t, th.(pc := Out, left := th.left + 1))
  }

  ghost predicate Fresh(s: State) {
    && s.threads != [] && s.waiting == 0 && s.step == 0
    && (forall t :: 0 <= t < |s.threads| ==> s.threads[t] == Thread(Out, 0, 0))
  }

  // ----- the invariant

  ghost predicate Here(s: State, t: nat) {
    t < |s.threads| && s.threads[t].arrived == s.step + 1
  }

  ghost function Arrived(s: State): set<nat> {
    set t: nat | t < |s.threads| && Here(s, t)
  }

  ghost predicate Closing(s: State, t: nat) {
    t < |s.threads| && (s.threads[t].pc.Last? || s.threads[t].pc.Reset?)
  }

  ghost predicate ThreadOk(s: State, th: Thread) {
    match th.pc
    case Out => th.arrived == th.left == s.step
    case Loaded(m) => m == s.step && th.arrived == th.left == s.step
    case Last(m) => m == s.step && th.arrived == s.step + 1 && th.left == s.step && s.waiting == |s.threads|
    case Reset(m) => m == s.step && th.arrived == s.step + 1 && th.left == s.step && s.waiting == 0
    case Spin(m) => th.arrived == m + 1 && th.left == m && (m == s.step || m + 1 == s.step)
  }

  /** While one thread closes the round everyone has arrived; otherwise `waiting` is
      the number of arrivals in this round, and someone is still to come. */
  ghost predicate WaitingOk(s: State) {
    && (forall t: nat, u: nat :: Closing(s, t) && Closing(s, u) ==> t == u)
    && ((exists t: nat :: Closing(s, t)) ==> forall u: nat :: u < |s.threads| ==> Here(s, u))
    && (!(exists t: nat :: Closing(s, t)) ==> s.waiting == |Arrived(s)| < |s.threads|)
  }

  ghost predicate Inv(s: State) {
    && s.threads != [] && (forall t :: 0 <= t < |s.threads| ==> ThreadOk(s, s.threads[t])) && WaitingOk(s)
  }

  lemma QuietStep(s: State, a: Action)
    requires Inv(s) && Enabled(s, a) && (a.LoadStep? || a.Leave?)
    ensures Inv(Apply(s, a))
  {
    var s' := Apply(s, a);
    assert ThreadOk(s, s.threads[a.t]);
    assert forall t: nat :: Here(s', t) <==> Here(s, t);
    assert forall t: nat :: Closing(s', t) <==> Closing(s, t);
    assert Arrived(s') == Arrived(s);
  }

  lemma IncrementStep(s: State, t: nat)
    requires Inv(s) && Enabled(s, Increment(t))
    ensures Inv(Apply(s, Increment(t)))
  {
    var s' := Apply(s, Increment(t));
    assert ThreadOk(s, s.threads[t]);
    assert !Here(s, t);
    assert forall u: nat :: !Closing(s, u);
    forall u: nat ensures Closing(s', u) <==> u == t && s.waiting + 1 == |s.threads| {
      assert !Closing(s, u);
    }
    assert Arrived(s') == Arrived(s) + {t};
    UpTo(Arrived(s'), |s.threads|);
    forall u | 0 <= u < |s'.threads| ensures ThreadOk(s', s'.threads[u]) {
      assert ThreadOk(s, s.threads[u]) && !Closing(s, u);
    }
    if s.waiting + 1 == |s.threads| {
      assert Closing(s', t);
      forall u: nat | u < |s'.threads| ensures Here(s', u) {
        assert u in Arrived(s');
      }
    }
  }

  lemma ResetStep(s: State, t: nat)
    requires Inv(s) && Enabled(s, ResetWaiting(t))
    ensures Inv(Apply(s, ResetWaiting(t)))
  {
    var s' := Apply(s, ResetWaiting(t));
    assert Closing(s, t) && Closing(s', t);
    assert ThreadOk(s, s.threads[t]);
    assert forall u: nat :: Closing(s', u) <==> Closing(s, u);
    assert forall u: nat :: Here(s', u) <==> Here(s, u);
    forall u | 0 <= u < |s'.threads| ensures ThreadOk(s', s'.threads[u]) {
      assert ThreadOk(s, s.threads[u]);
      assert u != t ==> !Closing(s, u);
    }
  }

  lemma RaiseStepStep(s: State, t: nat)
    requires Inv(s) && Enabled(s, RaiseStep(t))
    ensures Inv(Apply(s, RaiseStep(t)))
  {
    var s' := Apply(s, RaiseStep(t));
    assert Closing(s, t);
    assert ThreadOk(s, s.threads[t]);
    forall u: nat | u < |s'.threads| ensures ThreadOk(s', s'.threads[u]) && !Closing(s', u) && !Here(s', u) {
      assert ThreadOk(s, s.threads[u]) && Here(s, u);
      assert u != t ==> !Closing(s, u);
    }
    assert Arrived(s') == {};
  }

  lemma StepKeeps(s: State, a: Action)
    requires Inv(s) && Enabled(s, a)
    ensures Inv(Apply(s, a))
  {
    hide Inv, Apply;
    match a
    case LoadStep(t) => QuietStep(s, a);
    case Increment(t) => IncrementStep(s, t);
    case ResetWaiting(t) => ResetStep(s, t);
    case RaiseStep(t) => RaiseStepStep(s, t);
    case Leave(t) => QuietStep(s, a);
  }

  // ----- whole runs

  ghost predicate Legal(s: State, acts: seq<Action>)
    decreases |acts|, 0
  {
    acts == [] || (Legal(s, acts[..|acts| - 1]) && Enabled(After(s, acts[..|acts| - 1]), acts[|acts| - 1]))
  }

  ghost function After(s: State, acts: seq<Action>): State
    requires Legal(s, acts)
    decreases |acts|, 1
  {
    if acts == [] then s else Apply(After(s, acts[..|acts| - 1]), acts[|acts| - 1])
  }

  lemma {:induction false} RunKeeps(s: State, acts: seq<Action>)
    requires Fresh(s) && Legal(s, acts)
    ensures Inv(After(s, acts))
    decreases |acts|
  {
    if acts == [] {
      assert Arrived(s) == {};
    } else {
      hide Inv, Apply, Enabled;
      RunKeeps(s, acts[..|acts| - 1]);
      StepKeeps(After(s, acts[..|acts| - 1]), acts[|acts| - 1]);
    }
  }

  /** No thread leaves a round before all have arrived in it. */
  lemma NoneLeavesEarly(s: State, acts: seq<Action>, t: nat, u: nat)
    requires Fresh(s) && Legal(s, acts) && Enabled(After(s, acts), Leave(t)) && u < |After(s, acts).threads|
    ensures After(s, acts).threads[u].arrived >= After(s, acts).threads[t].left + 1
  {
    RunKeeps(s, acts);
    var r := After(s, acts);
    assert ThreadOk(r, r.threads[t]) && ThreadOk(r, r.threads[u]);
  }

  /** A ticket is never missed: while a thread waits on m, step is m or m + 1. */
  lemma TicketHolds(s: State, acts: seq<Action>, t: nat)
    requires Fresh(s) && Legal(s, acts) && t < |After(s, acts).threads| && After(s, acts).threads[t].pc.Spin?
    ensures var r := After(s, acts); var m := r.threads[t].pc.m;
            (r.step == m || r.step == m + 1) && (Enabled(r, Leave(t)) <==> r.step == m + 1)
  {
    RunKeeps(s, acts);
    assert ThreadOk(After(s, acts), After(s, acts).threads[t]);
  }

  /** `waiting` counts the arrivals of the round, except inside the reset. */
  lemma WaitingCounts(s: State, acts: seq<Action>)
    requires Fresh(s) && Legal(s, acts)
    ensures var r := After(s, acts);
            (forall t: nat :: t < |r.threads| ==> !r.threads[t].pc.Reset?) ==> r.waiting == |Arrived(r)|
  {
    RunKeeps(s, acts);
    var r := After(s, acts);
    if t: nat :| Closing(r, t) && r.threads[t].pc.Last? {
      assert ThreadOk(r, r.threads[t]);
      UpTo(Arrived(r), |r.threads|);
    }
  }

  /** The barrier never hangs: some thread can always move. */
  lemma SomeoneMoves(s: State, acts: seq<Action>)
    requires Fresh(s) && Legal(s, acts)
    ensures exists a :: Enabled(After(s, acts), a)
  {
    RunKeeps(s, acts);
    var r := After(s, acts);
    if c: nat :| Closing(r, c) {
      if r.threads[c].pc.Last? {
        assert Enabled(r, ResetWaiting(c));
      } else {
        assert Enabled(r, RaiseStep(c));
      }
    } else {
      var t := Missing(r);
      assert ThreadOk(r, r.threads[t]);
      match r.threads[t].pc {
        case Out => assert Enabled(r, LoadStep(t));
        case Loaded(m) => assert Enabled(r, Increment(t));
        case Spin(m) => assert Enabled(r, Leave(t));
      }
    }
  }

  /** When no thread closes the round, one has not arrived. */
  lemma Missing(s: State) returns (t: nat)
    requires Inv(s) && !(exists t: nat :: Closing(s, t))
    ensures t < |s.threads| && !Here(s, t) && !Closing(s, t)
  {
    if forall t: nat :: t < |s.threads| ==> Here(s, t) {
      UpTo(Arrived(s), |s.threads|);
    }
    t :| t < |s.threads| && !Here(s, t);
  }

  // ----- rounds go by

  /** How far a thread has come: five for each round it has left. */
  function Way(th: Thread): nat {
    5 * th.left + match th.pc
                  case Out => 0
                  case Loaded(m) => 1
                  case Last(m) => 2
                  case Reset(m) => 3
                  case Spin(m) => 4
  }

  ghost function AllWays(threads: seq<Thread>): nat {
    if threads == [] then 0 else AllWays(threads[..|threads| - 1]) + Way(threads[|threads| - 1])
  }

  lemma {:induction false} WaysSet(threads: seq<Thread>, t: nat, th: Thread)
    requires t < |threads|
    ensures AllWays(threads[t := th]) == AllWays(threads) - Way(threads[t]) + Way(th)
    decreases |threads|
  {
    hide Way;
    var n := |threads| - 1;
    if t < n {
      WaysSet(threads[..n], t, th);
      assert threads[t := th][..n] == threads[..n][t := th];
    } else {
      assert threads[t := th][..n] == threads[..n];
    }
  }

  lemma {:induction false} WaysBound(threads: seq<Thread>, most: nat)
    requires forall t :: 0 <= t < |threads| ==> Way(threads[t]) <= most
    ensures AllWays(threads) <= |threads| * most
  {
    hide Way;
    if threads != [] {
      WaysBound(threads[..|threads| - 1], most);
    }
  }

  lemma {:induction false} WaysRun(s: State, acts: seq<Action>)
    requires Legal(s, acts)
    ensures AllWays(After(s, acts).threads) >= |acts| && |After(s, acts).threads| == |s.threads|
    decreases |acts|
  {
    if acts != [] {
      var n := |acts| - 1;
      var r, a := After(s, acts[..n]), acts[n];
      WaysRun(s, acts[..n]);
      hide AllWays;
      WaysSet(r.threads, a.t, Apply(r, a).threads[a.t]);
    }
  }

  /** Every action brings its thread on, so rounds go by as long as the run goes on:
      `r` rounds take at most 5 * (r + 1) actions of each thread. */
  lemma RoundsPass(s: State, acts: seq<Action>)
    requires Fresh(s) && Legal(s, acts)
    ensures |acts| <= |s.threads| * (5 * (After(s, acts).step + 1))
  {
    RunKeeps(s, acts);
    WaysRun(s, acts);
    var r := After(s, acts);
    hide Legal, After, AllWays;
    forall t | 0 <= t < |r.threads| ensures Way(r.threads[t]) <= 5 * (r.step + 1) {
      assert ThreadOk(r, r.threads[t]);
    }
    WaysBound(r.threads, 5 * (r.step + 1));
  }
}
