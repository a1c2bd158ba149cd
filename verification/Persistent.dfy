/** Persistent channels (src/persist-comm.cpp): four receive buffers, a queue of
    messages that wait for one, and credits that hand a buffer back. */
module Persistent {

  /** PERSIST_BUFFERS_NUM */
  const BUFFERS: nat := 4
  /** CMK_PERSISTENT_REFBASE */
  const REFBASE: int := 0x4000_0000

  // ----- the sending side

  /** PersistentSendsTable. Messages are numbered by the caller. */
  datatype Slot = Slot(setup: bool, busy: seq<bool>, next: nat, pending: seq<nat>)

  datatype Write = Write(buf: nat, msg: nat)

  ghost predicate SlotOk(s: Slot) {
    |s.busy| == BUFFERS && s.next < BUFFERS
  }

  /** The buffer `k` places on from `next`, round the ring. */
  function At(next: nat, k: nat): (i: nat)
    ensures i < BUFFERS
  {
    (next + k) % BUFFERS
  }

  /** Of the buffers from the `i`-th place on, `idx` is free and all before it are
      busy; or all are busy and it is -1. */
  ghost predicate FirstFree(busy: seq<bool>, next: nat, i: nat, idx: int)
    requires |busy| == BUFFERS
  {
    || (idx == -1 && forall k :: i <= k < BUFFERS ==> busy[At(next, k)])
    || (exists k :: i <= k < BUFFERS && idx == At(next, k) && !busy[idx]
                    && forall j :: i <= j < k ==> busy[At(next, j)])
  }

  /** The first free buffer from `next` on, round the ring; -1 if there is none. */
  function FreeFrom(busy: seq<bool>, next: nat, i: nat): (idx: int)
    requires |busy| == BUFFERS
    ensures -1 <= idx < BUFFERS && (idx >= 0 ==> !busy[idx]) && FirstFree(busy, next, i, idx)
    decreases BUFFERS - i
  {
    if i >= BUFFERS then -1
    else if !busy[At(next, i)] then At(next, i)
    else FreeFrom(busy, next, i + 1)
  }

  lemma NoneFree(busy: seq<bool>, next: nat)
    requires |busy| == BUFFERS && next < BUFFERS
    ensures FreeFrom(busy, next, 0) < 0 <==> forall i :: 0 <= i < BUFFERS ==> busy[i]
  {
    if FreeFrom(busy, next, 0) < 0 {
      assert busy[At(next, 0)] && busy[At(next, 1)] && busy[At(next, 2)] && busy[At(next, 3)];
    }
  }

  function Claim(s: Slot, idx: nat): (r: Slot)
    requires |s.busy| == BUFFERS && idx < BUFFERS
    ensures |r.busy| == BUFFERS && r.next < BUFFERS
  {
    s.(busy := s.busy[idx := true], next := (idx + 1) % BUFFERS)
  }

  /** flushPending */
  function Flush(s: Slot): (r: (Slot, seq<Write>))
    requires |s.busy| == BUFFERS && s.next < BUFFERS
    ensures |r.0.busy| == BUFFERS && r.0.next < BUFFERS && r.0.setup == s.setup
    decreases |s.pending|
  {
    var idx := FreeFrom(s.busy, s.next, 0);
    if s.pending == [] || idx < 0 then (s, [])
    else
      var rest := Flush(Claim(s, idx).(pending := s.pending[1..]));
      (rest.0, [Write(idx, s.pending[0])] + rest.1)
  }

  /** CmiSendPersistentMsg */
  function SendOn(s: Slot, m: nat): (r: (Slot, seq<Write>))
    requires |s.busy| == BUFFERS && s.next < BUFFERS
    ensures |r.0.busy| == BUFFERS && r.0.next < BUFFERS && r.0.setup == s.setup
  {
    if !s.setup || s.pending != [] then
      var s1 := s.(pending := s.pending + [m]);
      if s.setup then Flush(s1) else (s1, [])
    else
      var idx := FreeFrom(s.busy, s.next, 0);
      if idx < 0 then (s.(pending := s.pending + [m]), []) else (Claim(s, idx), [Write(idx, m)])
  }

  function GrantOn(s: Slot): (Slot, seq<Write>)
    requires |s.busy| == BUFFERS && s.next < BUFFERS
  {
    Flush(s.(setup := true))
  }

  function CreditOn(s: Slot, i: nat): (Slot, seq<Write>)
    requires |s.busy| == BUFFERS && s.next < BUFFERS && i < BUFFERS
  {
    Flush(s.(busy := s.busy[i := false]))
  }

  lemma FlushUnfold(s: Slot)
    requires SlotOk(s)
    ensures var idx := FreeFrom(s.busy, s.next, 0);
            if s.pending == [] || idx < 0 then Flush(s) == (s, [])
            else var rest := Flush(Claim(s, idx).(pending := s.pending[1..]));
                 Flush(s) == (rest.0, [Write(idx, s.pending[0])] + rest.1)
  {
  }

  /** The table entry as the code keeps it. */
  class SendsTable {
    var setupDone: bool
    const busy: array<bool>
    var nextBuf: nat
    var pending: seq<nat>
    const sizeMax: nat

    ghost predicate Valid() reads this, busy {
      busy.Length == BUFFERS && nextBuf < BUFFERS
    }

    ghost function Value(): Slot reads this, busy
      requires Valid()
    {
      Slot(setupDone, busy[..], nextBuf, pending)
    }

    constructor (sizeMax: nat)
      ensures Valid() && fresh(busy) && this.sizeMax == sizeMax
      ensures Value() == Slot(false, [false, false, false, false], 0, [])
    {
      this.sizeMax := sizeMax;
      setupDone, nextBuf, pending := false, 0, [];
      busy := new bool[BUFFERS](i => false);
    }

    method FindFreeBuffer() returns (idx: int)
      requires Valid()
      modifies this`nextBuf
      ensures Valid() && idx == FreeFrom(busy[..], old(nextBuf), 0)
      ensures FirstFree(busy[..], old(nextBuf), 0, idx)
      ensures nextBuf == if idx < 0 then old(nextBuf) else (idx + 1) % BUFFERS
    {
      var i := 0;
      while i < BUFFERS
        invariant 0 <= i <= BUFFERS && nextBuf == old(nextBuf)
        invariant FreeFrom(busy[..], nextBuf, 0) == FreeFrom(busy[..], nextBuf, i)
      {
        idx := At(nextBuf, i);
        if !busy[idx] {
          nextBuf := (idx + 1) % BUFFERS;
          return;
        }
        i := i + 1;
      }
      idx := -1;
    }

    method FlushPending() returns (writes: seq<Write>)
      requires Valid()
      modifies this, busy
      ensures Valid() && (Value(), writes) == Flush(old(Value()))
    {
      hide Flush, FreeFrom;
      writes := [];
      ghost var all := Flush(Value());
      assert writes + all.1 == all.1;
      while pending != []
        invariant Valid() && all.0 == Flush(Value()).0 && all.1 == writes + Flush(Value()).1
        decreases |pending|
      {
        ghost var was := Value();
        var idx := FindFreeBuffer();
        FlushUnfold(was);
        if idx < 0 {
          break;
        }
        var m := pending[0];
        pending := pending[1..];
        busy[idx] := true;
        assert Value() == Claim(was, idx).(pending := was.pending[1..]);
        assert writes + ([Write(idx, m)] + Flush(Value()).1) == (writes + [Write(idx, m)]) + Flush(Value()).1;
        writes := writes + [Write(idx, m)];
      }
      FlushUnfold(Value());
      assert writes + [] == writes;
    }

    /** A message larger than the channel stops the program. */
    method Send(size: nat, m: nat) returns (stopped: bool, writes: seq<Write>)
      requires Valid()
      modifies this, busy
      ensures Valid() && (stopped <==> size > sizeMax)
      ensures stopped ==> Value() == old(Value())
      ensures !stopped ==> (Value(), writes) == SendOn(old(Value()), m)
    {
      writes := [];
      if size > sizeMax {
        return true, [];
      }
      stopped := false;
      if !setupDone || pending != [] {
        pending := pending + [m];
        if setupDone {
          writes := FlushPending();
        }
        return;
      }
      ghost var was := Value();
      var idx := FindFreeBuffer();
      if idx < 0 {
        pending := pending + [m];
        return;
      }
      busy[idx] := true;
      assert Value() == Claim(was, idx);
      writes := [Write(idx, m)];
    }

    method Granted() returns (writes: seq<Write>)
      requires Valid()
      modifies this, busy
      ensures Valid() && (Value(), writes) == GrantOn(old(Value()))
    {
      setupDone := true;
      writes := FlushPending();
    }

    method Credited(i: nat) returns (writes: seq<Write>)
      requires Valid() && i < BUFFERS
      modifies this, busy
      ensures Valid() && (Value(), writes) == CreditOn(old(Value()), i)
    {
      ghost var was := Value();
      busy[i] := false;
      assert Value() == was.(busy := was.busy[i := false]);
      writes := FlushPending();
    }
  }
}
