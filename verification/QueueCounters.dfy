/** The counters over a concurrent queue (AtomicAccessControl in src/queue.h): many
    producers, and either one consumer with a private credit or several without. The
    inner queue is taken to be linearizable; which message it gives is its choice. */
module QueueCounters {

  datatype Pc =
    | Out                  // in none of pop_result, size and empty
    | Loaded(p: nat)       // pushed has been read
    | Ready                // available() was positive
    | Counting             // a message has been dequeued, `taken` not yet raised

  /** `bumping` are the producers between their enqueue and their increment of
      `pushed`. `sent` and `popped` are the messages enqueued and dequeued so far. */
  datatype Queue = Queue(single: bool, inner: multiset<nat>, pushed: nat, taken: nat, credit: nat,
                         bumping: set<nat>, pcs: map<nat, Pc>, sent: multiset<nat>, popped: multiset<nat>)
  {
    function At(k: nat): Pc { if k in pcs then pcs[k] else Out }
    function With(k: nat, pc: Pc): Queue { this.(pcs := pcs[k := pc]) }
  }

  /** UseCredit, LoadPushed and LoadTaken are available(), on behalf of pop_result,
      size or empty; Look is the return from size or empty when it was positive. */
  datatype Action =
    | Enqueue(p: nat, x: nat) | Bump(p: nat)
    | UseCredit(k: nat) | LoadPushed(k: nat) | LoadTaken(k: nat)
    | Dequeue(k: nat, x: nat) | Miss(k: nat) | CountTaken(k: nat) | Look(k: nat)

  ghost predicate Enabled(c: Queue, a: Action) {
    match a
    case Enqueue(p, x) => p !in c.bumping
    case Bump(p) => p in c.bumping
    case UseCredit(k) => c.At(k).Out? && c.single && k == 0 && c.credit > 0
    case LoadPushed(k) => c.At(k).Out? && (c.single ==> k == 0 && c.credit == 0)
    case LoadTaken(k) => c.At(k).Loaded?
    case Dequeue(k, x) => c.At(k).Ready? && x in c.inner
    case Miss(k) => c.At(k).Ready? && c.inner == multiset{}
    case CountTaken(k) => c.At(k).Counting?
    case Look(k) => c.At(k).Ready?
  }

  ghost function Apply(c: Queue, a: Action): Queue
    requires Enabled(c, a)
  {
    match a
    case Enqueue(p, x) => c.(inner := c.inner + multiset{x}, sent := c.sent + multiset{x}, bumping := c.bumping + {p})
    case Bump(p) => c.(pushed := c.pushed + 1, bumping := c.bumping - {p})
    case UseCredit(k) => c.With(k, Ready)
    case LoadPushed(k) => c.With(k, Loaded(c.pushed))
    case LoadTaken(k) =>
      var n := c.At(k).p - c.taken;
      var c1 := if c.single then c.(credit := if n > 0 then n else 0) else c;
      c1.With(k, if n > 0 then Ready else Out)
    case Dequeue(k, x) =>
      var c1 := c.(inner := c.inner - multiset{x}, popped := c.popped + multiset{x});
      (if c.single && c.credit > 0 then c1.(credit := c.credit - 1) else c1).With(k, Counting)
    case Miss(k) => (if c.single then c.(credit := 0) else c).With(k, Out)
    case CountTaken(k) => c.(taken := c.taken + 1).With(k, Out)
    case Look(k) => c.With(k, Out)
  }

  ghost predicate Fresh(c: Queue) {
    c == Queue(c.single, multiset{}, 0, 0, 0, {}, map[], multiset{}, multiset{})
  }

  /** The consumers that have a message not yet counted. */
  ghost function Counters(c: Queue): set<nat> {
    set k | k in c.pcs && c.pcs[k].Counting?
  }

  /** What the single consumer's credit promises. */
  ghost predicate CreditOk(c: Queue) {
    && (forall k :: k in c.pcs && !c.pcs[k].Out? ==> k == 0)
    && c.taken + |Counters(c)| + c.credit <= c.pushed
    && (c.At(0).Ready? ==> c.credit > 0) && (c.At(0).Loaded? ==> c.credit == 0 && c.At(0).p <= c.pushed)
  }

  ghost predicate Inv(c: Queue) {
    && c.sent == c.inner + c.popped
    && c.pushed + |c.bumping| == |c.sent|
    && c.taken + |Counters(c)| == |c.popped|
    && (c.single ==> CreditOk(c))
    && (!c.single ==> c.credit == 0)
  }

  lemma CountersSet(c: Queue, k: nat, pc: Pc)
    ensures Counters(c.With(k, pc)) == if pc.Counting? then Counters(c) + {k} else Counters(c) - {k}
  {
  }

  lemma NoneCounting(c: Queue)
    requires c.single && CreditOk(c)
    ensures Counters(c) == if c.At(0).Counting? then {0} else {}
  {
  }

  lemma ProducerStep(c: Queue, a: Action)
    requires Inv(c) && Enabled(c, a) && (a.Enqueue? || a.Bump?)
    ensures Inv(Apply(c, a))
  {
    assert Counters(Apply(c, a)) == Counters(c);
  }

  lemma ConsumerStep(c: Queue, a: Action, k: nat)
    requires Inv(c) && Enabled(c, a)
    requires a == UseCredit(k) || a == LoadPushed(k) || a == LoadTaken(k) || a == Miss(k) || a == Look(k)
    ensures Inv(Apply(c, a))
  {
    var c' := Apply(c, a);
    CountersSet(c, k, c'.At(k));
    assert Counters(c') == Counters(c.With(k, c'.At(k)));
    if c.single {
      NoneCounting(c);
    }
  }

  lemma TakingStep(c: Queue, a: Action, k: nat)
    requires Inv(c) && Enabled(c, a) && (a == CountTaken(k) || (a.Dequeue? && a.k == k))
    ensures Inv(Apply(c, a))
  {
    var c' := Apply(c, a);
    CountersSet(c, k, c'.At(k));
    assert Counters(c') == Counters(c.With(k, c'.At(k)));
    if c.single {
      NoneCounting(c);
    }
  }

  lemma StepKeeps(c: Queue, a: Action)
    requires Inv(c) && Enabled(c, a)
    ensures Inv(Apply(c, a)) && Apply(c, a).single == c.single
  {
    hide Inv;
    match a
    case Enqueue(p, x) => ProducerStep(c, a);
    case Bump(p) => ProducerStep(c, a);
    case Dequeue(k, x) => TakingStep(c, a, k);
    case CountTaken(k) => TakingStep(c, a, k);
    case _ => ConsumerStep(c, a, a.k);
  }

  // ----- whole runs

  ghost predicate Legal(c: Queue, acts: seq<Action>)
    decreases |acts|, 0
  {
    acts == [] || (Legal(c, acts[..|acts| - 1]) && Enabled(After(c, acts[..|acts| - 1]), acts[|acts| - 1]))
  }

  ghost function After(c: Queue, acts: seq<Action>): Queue
    requires Legal(c, acts)
    decreases |acts|, 1
  {
    if acts == [] then c else Apply(After(c, acts[..|acts| - 1]), acts[|acts| - 1])
  }

  lemma {:induction false} RunKeeps(c: Queue, acts: seq<Action>)
    requires Fresh(c) && Legal(c, acts)
    ensures Inv(After(c, acts)) && After(c, acts).single == c.single
    decreases |acts|
  {
    if acts == [] {
      assert Counters(c) == {};
    } else {
      RunKeeps(c, acts[..|acts| - 1]);
      StepKeeps(After(c, acts[..|acts| - 1]), acts[|acts| - 1]);
    }
  }

  /** With one consumer taken + credit <= pushed <= completed enqueues in every
      interleaving; with several, taken is only bounded by the messages dequeued. No
      message is lost or made up. */
  lemma CountersBound(c: Queue, acts: seq<Action>)
    requires Fresh(c) && Legal(c, acts)
    ensures var r := After(c, acts);
            && (c.single ==> r.taken + r.credit <= r.pushed) && r.pushed <= |r.sent| && r.taken <= |r.popped|
            && r.sent == r.inner + r.popped
  {
    RunKeeps(c, acts);
  }

  /** With one consumer available() never promises more than is there, and a pop that
      has seen it positive always gets a message: the missed-dequeue branch is dead. */
  lemma CreditIsAMessage(c: Queue, acts: seq<Action>, k: nat)
    requires Fresh(c) && Legal(c, acts) && c.single && After(c, acts).At(k).Ready?
    ensures |After(c, acts).inner| >= After(c, acts).credit > 0 && !Enabled(After(c, acts), Miss(k))
  {
    RunKeeps(c, acts);
    NoneCounting(After(c, acts));
  }

  /** Once the producers have stopped and no other consumer is in the middle of a
      call, a pop that returns nothing, a size of zero and an empty that says yes have
      found the queue empty. */
  lemma EmptyMeansEmpty(c: Queue, acts: seq<Action>, a: Action)
    requires Fresh(c) && Legal(c, acts) && Enabled(After(c, acts), a) && (a.LoadTaken? || a.Miss?)
    requires var r := After(c, acts);
             && r.bumping == {} && (forall k :: k in r.pcs && k != a.k ==> r.pcs[k].Out?)
             && (a.LoadTaken? ==> r.At(a.k).p == r.pushed) && Apply(r, a).At(a.k).Out?
    ensures After(c, acts).inner == multiset{} && After(c, acts).popped == After(c, acts).sent
  {
    RunKeeps(c, acts);
    var r := After(c, acts);
    assert Counters(r) == {};
  }

  /** The value of `pushed` that the latest available() saw. */
  ghost function Seen(c: Queue, acts: seq<Action>): nat
    requires Legal(c, acts)
  {
    if acts == [] then 0
    else
      var r, a := After(c, acts[..|acts| - 1]), acts[|acts| - 1];
      if a.LoadTaken? then r.At(a.k).p else Seen(c, acts[..|acts| - 1])
  }

  ghost predicate CreditFrom(c: Queue, seen: nat) {
    c.credit > 0 ==> c.taken + |Counters(c)| + c.credit == seen
  }

  lemma CreditStep(c: Queue, a: Action, seen: nat)
    requires Inv(c) && c.single && Enabled(c, a) && CreditFrom(c, seen)
    ensures CreditFrom(Apply(c, a), if a.LoadTaken? then c.At(a.k).p else seen)
  {
    NoneCounting(c);
    StepKeeps(c, a);
    NoneCounting(Apply(c, a));
  }

  /** One look at `pushed` lasts for all the messages it counted: with one consumer
      the credit runs out exactly when as many have been dequeued as had been pushed
      at the latest look. */
  lemma {:induction false} CreditLasts(c: Queue, acts: seq<Action>)
    requires Fresh(c) && Legal(c, acts) && c.single
    ensures var r := After(c, acts); r.credit > 0 ==> |r.popped| + r.credit == Seen(c, acts)
    decreases |acts|
  {
    RunKeeps(c, acts);
    CreditRun(c, acts);
  }

  lemma {:induction false} CreditRun(c: Queue, acts: seq<Action>)
    requires Fresh(c) && Legal(c, acts) && c.single
    ensures CreditFrom(After(c, acts), Seen(c, acts))
    decreases |acts|
  {
    hide Apply, Enabled, CreditFrom;
    if acts == [] {
      NoCredit(c);
    } else {
      var n := |acts| - 1;
      CreditRun(c, acts[..n]);
      RunKeeps(c, acts[..n]);
      CreditStep(After(c, acts[..n]), acts[n], Seen(c, acts[..n]));
    }
  }

  lemma NoCredit(c: Queue)
    requires Fresh(c)
    ensures CreditFrom(c, 0)
  {
  }

  ghost function Enqueued(acts: seq<Action>): multiset<nat> {
    if acts == [] then multiset{}
    else Enqueued(acts[..|acts| - 1]) + if acts[|acts| - 1].Enqueue? then multiset{acts[|acts| - 1].x} else multiset{}
  }

  /** The messages in and out are those of the calls to push. */
  lemma {:induction false} SentIsEnqueued(c: Queue, acts: seq<Action>)
    requires Fresh(c) && Legal(c, acts)
    ensures After(c, acts).sent == Enqueued(acts)
    decreases |acts|
  {
    hide Apply, Enabled;
    if acts != [] {
      SentIsEnqueued(c, acts[..|acts| - 1]);
      SentAfter(After(c, acts[..|acts| - 1]), acts[|acts| - 1]);
    }
  }

  lemma SentAfter(c: Queue, a: Action)
    requires Enabled(c, a)
    ensures Apply(c, a).sent == c.sent + if a.Enqueue? then multiset{a.x} else multiset{}
  {
  }

  /** A push in two steps adds its message and counts it. */
  lemma LonePush(c: Queue, acts: seq<Action>, p: nat, x: nat)
    requires Fresh(c) && Legal(c, acts) && p !in After(c, acts).bumping
    ensures var r := After(c, acts);
            && Enabled(r, Enqueue(p, x)) && Enabled(Apply(r, Enqueue(p, x)), Bump(p))
            && var r2 := Apply(Apply(r, Enqueue(p, x)), Bump(p));
               r2.inner == r.inner + multiset{x} && r2.pushed == r.pushed + 1 && r2.bumping == r.bumping
  {
  }

  /** A pop with no other call in progress gets a message if there is one: any that
      the inner queue gives. */
  lemma LonePop(c: Queue, acts: seq<Action>, k: nat, x: nat)
    requires Fresh(c) && Legal(c, acts) && x in After(c, acts).inner && (c.single ==> k == 0)
    requires var r := After(c, acts); r.bumping == {} && forall j :: j in r.pcs ==> r.pcs[j].Out?
    ensures var r := After(c, acts);
            if c.single && r.credit > 0 then Enabled(r, UseCredit(k)) && Enabled(Apply(r, UseCredit(k)), Dequeue(k, x))
            else
              && Enabled(r, LoadPushed(k)) && Enabled(Apply(r, LoadPushed(k)), LoadTaken(k))
              && Enabled(Apply(Apply(r, LoadPushed(k)), LoadTaken(k)), Dequeue(k, x))
  {
    RunKeeps(c, acts);
    var r := After(c, acts);
    assert Counters(r) == {};
    assert |r.inner| > 0;
  }
}
