/** The sweep of the registered scheduler (src/scheduler_registered.cpp), as far as
    CsdSchedulePollRegistered relies on it to know when to return. What the queues
    shared with other PEs hold at each poll is the environment's choice; the PE's
    own priority queue changes only by what this PE does. */
module SchedulePoll {
  import opened SlotTable

  /** Where messages come from. The first five are handlers of the slot table, in
      the order they are registered. */
  datatype Source = ThreadQueue | NodePrio | LocalPrio | Progress | TaskQueue | NodeQueue | NodeAhead

  function Handler(h: int): Source {
    if h == 0 then ThreadQueue
    else if h == 1 then NodePrio
    else if h == 2 then LocalPrio
    else if h == 3 then Progress
    else TaskQueue
  }

  const HANDLERS: nat := 5
  const BACKEND_POLL_FREQ_DEFAULT: nat := 64

  /** The environment, by the clock: whether a shared source has a message to give,
      whether the network made progress, and how much local work a message that is
      run, or one that progress delivers, leaves behind. */
  datatype World = World(has: (Source, nat) -> bool, moved: nat -> bool, polls: bool,
                         left: nat -> nat, more: nat -> nat)

  /** CmiQueueRegisterInitThread: the table a PE sweeps. Every handler is in it, at
      every polling rate: `pollFreq` is an int, raised to at least one. */
  method RegisterInitThread(pollFreq: nat, tasks: bool) returns (table: seq<int>)
    requires 1 <= pollFreq < 0x8000_0000
    ensures |table| == TABLE
    ensures forall h: int :: 0 <= h < (if tasks then HANDLERS else HANDLERS - 1) ==> Count(table, h) > 0
    ensures pollFreq == BACKEND_POLL_FREQ_DEFAULT && !tasks ==>
              Count(table, 0) == 11 && Count(table, 1) == 1 && Count(table, 2) == 11 && Count(table, 3) == 41
  {
    hide Count, Sum, Share, AllShares, Spread, SlotTable.Progress, TrimmedFrom, Even;
    var weights: seq<nat> := [16, 1, 16, pollFreq] + if tasks then [1] else [];
    WeightSum(weights);
    SharesAddUp(weights);
    var r, slots, given := BuildTable(weights);
    table := r.value;
    ShareOut(table, weights, slots);
    if pollFreq == BACKEND_POLL_FREQ_DEFAULT && !tasks {
      assert weights == [16, 1, 16, 64];
      SumFour(weights);
      DefaultShares(slots);
    }
  }

  lemma ShareOut(table: seq<int>, weights: seq<nat>, slots: seq<nat>)
    requires 0 < Sum(weights) < UINT && Spread(table, slots) && TrimmedFrom(slots, AllShares(weights, Sum(weights)))
    ensures |table| == TABLE && |slots| == |weights|
    ensures forall h: int :: 0 <= h < |slots| ==> Count(table, h) == slots[h] > 0
  {
    hide Count, Sum, Share;
  }

  lemma WeightSum(weights: seq<nat>)
    requires 4 <= |weights| <= 5 && weights[..3] == [16, 1, 16] && weights[3] < 0x8000_0000
    requires |weights| == 5 ==> weights[4] == 1
    ensures 0 < Sum(weights) < UINT
  {
    hide Sum;
    SumNone();
    if |weights| == 5 {
      SumSnoc(weights[..4], weights[4]);
      assert weights[..4] + [weights[4]] == weights;
    }
    var four := weights[..4];
    assert four == [16, 1, 16] + [four[3]] && [16, 1, 16] == [16, 1] + [16];
    assert [16, 1] == [16] + [1] && [16] == [] + [16];
    SumSnoc([16, 1, 16], four[3]);
    SumSnoc([16, 1], 16);
    SumSnoc([16], 1);
    SumSnoc([], 16);
    assert |weights| == 4 ==> weights == four;
  }

  class Pe {
    const world: World
    const nodeQueueMax: nat
    const table: seq<int>
    var local: nat               // length of CsdSchedQueue
    var streak: nat              // t_nodeStreak
    var foundNothing: bool       // t_progressFoundNothing
    var clock: nat
    ghost var asked: set<Source> // polled in this iteration, and gave nothing
    ghost var log: seq<Source>   // where the messages that were run came from

    constructor (world: World, nodeQueueMax: nat, table: seq<int>, local: nat)
      ensures this.world == world && this.nodeQueueMax == nodeQueueMax && this.table == table && this.local == local
      ensures streak == 0 && log == []
    {
      this.world, this.nodeQueueMax, this.table, this.local := world, nodeQueueMax, table, local;
      streak, foundNothing, clock, asked, log := 0, false, 0, {}, [];
    }

    /** The node queue has been asked, or there is local work. */
    ghost predicate Fair() reads this {
      NodeQueue in asked || local > 0
    }

    /** The streak rule: after `nodeQueueMax` node messages in a row, local work has
        its turn. */
    predicate LocalTurn() reads this {
      streak >= nodeQueueMax && local > 0
    }

    /** runTaken: a message that was taken is run, and may leave any local work. */
    method Run(source: Source, found: bool) returns (work: bool)
      modifies this
      ensures work == found && clock == old(clock) + 1 && streak == old(streak) && foundNothing == old(foundNothing)
      ensures work ==> log == old(log) + [source] && asked == old(asked) && local == world.left(clock)
      ensures !work ==> log == old(log) && asked == old(asked) + {source} && local == old(local)
    {
      work := found;
      clock := clock + 1;
      if found {
        local := world.left(clock);
        log := log + [source];
      } else {
        asked := asked + {source};
      }
    }

    /** A poll of a source that other PEs may fill or drain. */
    method PollShared(source: Source) returns (work: bool)
      modifies this
      ensures work == world.has(source, old(clock))
      ensures clock == old(clock) + 1 && streak == old(streak) && foundNothing == old(foundNothing)
      ensures work ==> log == old(log) + [source] && asked == old(asked)
      ensures !work ==> log == old(log) && asked == old(asked) + {source} && local == old(local)
    {
      work := Run(source, world.has(source, clock));
    }

    /** pollThreadPrioQueue finds work exactly when there is some. */
    method PollLocal() returns (work: bool)
      modifies this
      ensures work == (old(local) > 0)
      ensures clock == old(clock) + 1 && streak == old(streak) && foundNothing == old(foundNothing)
      ensures work ==> log == old(log) + [LocalPrio] && asked == old(asked)
      ensures !work ==> log == old(log) && asked == old(asked) + {LocalPrio} && local == 0
    {
      if local > 0 {
        local := local - 1;
        work := Run(LocalPrio, true);
      } else {
        work := Run(LocalPrio, false);
      }
    }

    /** pollNodeQueuesFirst: when it is local work's turn nothing is asked and the
        streak starts again. Otherwise the node queue and then the node priority
        queue are asked; a message found lengthens the streak, none ends it. */
    method PollNodeFirst() returns (work: bool)
      modifies this
      ensures foundNothing == old(foundNothing)
      ensures old(LocalTurn()) ==> !work && asked == old(asked) && clock == old(clock)
      ensures !old(LocalTurn()) ==>
                work == (world.has(NodeQueue, old(clock)) || world.has(NodeAhead, old(clock) + 1))
      ensures !old(LocalTurn()) && !work ==> asked == old(asked) + {NodeQueue, NodeAhead}
      ensures work ==> streak == old(streak) + 1
      ensures work ==> log == old(log) + [if world.has(NodeQueue, old(clock)) then NodeQueue else NodeAhead]
      ensures !work ==> streak == 0 && log == old(log) && local == old(local) && Fair()
    {
      if streak >= nodeQueueMax && local > 0 {
        streak := 0;
        return false;
      }
      work := PollShared(NodeQueue);
      if !work {
        work := PollShared(NodeAhead);
      }
      streak := if work then streak + 1 else 0;
    }

    /** pollProgress: at most one empty poll of the network per sweep. What progress
        delivers is run by the two rules: the thread queue first, then node work.
        Messages that progress delivers can only add local work. */
    method PollProgress() returns (work: bool)
      modifies this
      ensures !work ==> local >= old(local) && asked >= old(asked) && log == old(log) && (old(Fair()) ==> Fair())
      ensures old(foundNothing) || !world.polls ==> !work && clock == old(clock) && foundNothing == old(foundNothing)
      ensures !old(foundNothing) && world.polls && !world.moved(old(clock) + 1) ==>
                !work && foundNothing && clock == old(clock) + 1 && local == old(local)
      ensures !old(foundNothing) && world.polls && world.moved(old(clock) + 1) ==>
                && !foundNothing && (world.has(ThreadQueue, old(clock) + 1) ==> work && log == old(log) + [ThreadQueue])
                && (!work ==> local == old(local) + world.more(old(clock) + 1))
      ensures work ==> exists x :: x in {ThreadQueue, NodeQueue, NodeAhead} && log == old(log) + [x]
    {
      if foundNothing {
        return false;
      }
      work := false;
      if world.polls {
        clock := clock + 1;
        if world.moved(clock) {
          local := local + world.more(clock);
          work := PollShared(ThreadQueue);
          if !work {
            work := PollNodeFirst();
          }
          return;
        }
        foundNothing := true;
      }
    }

    /** One slot of the table. */
    method PollSlot(h: int) returns (work: bool)
      modifies this
      ensures !work ==> local >= old(local) && asked >= old(asked) && log == old(log) && (old(Fair()) ==> Fair())
      ensures work ==> exists x :: log == old(log) + [x]
      ensures !work && h != NO_WORK ==> Handler(h) in asked
      ensures h == 2 ==> work == (old(local) > 0)
      ensures h == NO_WORK ==> !work
      ensures h != NO_WORK && h != 2 && h != 3 ==> work == world.has(Handler(h), old(clock))
      ensures h == 3 && !old(foundNothing) && world.polls && world.moved(old(clock) + 1) ==>
                (world.has(ThreadQueue, old(clock) + 1) ==> work)
    {
      if h == NO_WORK {
        return false;
      }
      if h == 2 {
        work := PollLocal();
      } else if h == 3 {
        work := PollProgress();
        asked := asked + {Progress};
      } else {
        work := PollShared(Handler(h));
      }
    }

    /** One iteration of CsdSchedulePollRegistered. It runs at most one message, and it
        is the last exactly if it ran none and no shared-memory message came. A
        message of the thread queue goes first, then one of the node queue unless it
        is local work's turn; local work is never passed over for nothing. The last
        iteration has swept the whole table, every handler reported no work, and the
        thread queue and the node queue were really polled: when the streak rule
        skips the node queue, the local work it makes way for is found by the same
        sweep. */
    method Iteration(counter: nat, ipcDone: bool) returns (done: bool)
      requires |table| == TABLE && Count(table, 2) > 0
      modifies this
      ensures done <==> !ipcDone && log == old(log)
      ensures log == old(log) || exists x :: log == old(log) + [x]
      ensures world.has(ThreadQueue, old(clock)) ==> log == old(log) + [ThreadQueue]
      ensures !world.has(ThreadQueue, old(clock)) && !old(LocalTurn()) && world.has(NodeQueue, old(clock) + 1) ==>
                log == old(log) + [NodeQueue] && streak == old(streak) + 1
      ensures old(local) > 0 ==> log != old(log)
      ensures done ==> forall h: int :: 0 <= h < HANDLERS && Count(table, h) > 0 ==> Handler(h) in asked
      ensures done ==> ThreadQueue in asked && NodeQueue in asked
    {
      foundNothing := false;
      asked := {};
      ghost var was, work0 := local, log;
      var work := PollShared(ThreadQueue);
      if !work {
        work := PollNodeFirst();
      }
      var t := 0;
      ghost var first := work;
      while t < TABLE && !work
        invariant 0 <= t <= TABLE && (first ==> work && t == 0)
        invariant t == 0 ==> work == first
        invariant work ==> exists x :: log == work0 + [x]
        invariant first ==> streak == old(streak) + 1 || world.has(ThreadQueue, old(clock))
        invariant first ==> log == work0 + [FirstSource(old(clock))]
        invariant !first ==> !world.has(ThreadQueue, old(clock))
                             && (old(LocalTurn()) || !world.has(NodeQueue, old(clock) + 1))
        invariant !work ==> log == work0 && local >= was && Fair() && ThreadQueue in asked
        invariant !work ==>
                    forall s: nat :: s < t && table[SlotAt(counter, s)] != NO_WORK ==>
                                       Handler(table[SlotAt(counter, s)]) in asked
        invariant !work && local > 0 ==> forall s: nat :: s < t ==> table[SlotAt(counter, s)] != 2 || NodeQueue in asked
        invariant !work && was > 0 ==> forall s: nat :: s < t ==> table[SlotAt(counter, s)] != 2
      {
        work := PollSlot(table[SlotAt(counter, t)]);
        t := t + 1;
      }
      done := !work && !ipcDone;
      if !work {
        SweepAsked(counter);
        SweepMeets(table, 2, counter);
      }
    }

    /** Where the message comes from when one of the two rules finds it. */
    ghost function FirstSource(now: nat): Source {
      if world.has(ThreadQueue, now) then ThreadQueue
      else if world.has(NodeQueue, now + 1) then NodeQueue
      else NodeAhead
    }

    lemma SweepAsked(counter: nat)
      requires |table| == TABLE && Count(table, 2) > 0 && Fair()
      requires forall s: nat :: s < TABLE && table[SlotAt(counter, s)] != NO_WORK ==>
                                  Handler(table[SlotAt(counter, s)]) in asked
      requires local > 0 ==> forall s: nat :: s < TABLE ==> table[SlotAt(counter, s)] != 2 || NodeQueue in asked
      ensures NodeQueue in asked
      ensures forall h: int :: 0 <= h < HANDLERS && Count(table, h) > 0 ==> Handler(h) in asked
    {
      forall h: int | 0 <= h < HANDLERS && Count(table, h) > 0 ensures Handler(h) in asked {
        SweepMeets(table, h, counter);
      }
      SweepMeets(table, 2, counter);
    }
  }
}
