/** One persistent channel end to end: the sender's table entry, what is under way
    in either direction, and the receive buffers with their reference counts. Puts,
    notifications and credits complete in any order. */
module PersistentChannel {
  import opened Collections
  import opened Persistent

  /** Under way: a one-sided put, a notification (with the payload inside if it is
      inline), or a credit. */
  datatype Packet = Put(buf: nat, msg: nat) | Note(buf: nat, msg: nat, inline: bool) | Credit(buf: nat)

  /** A receive buffer: its bytes, its biased reference count, and whether its
      header names a sender to credit. */
  datatype Buffer = Buffer(content: nat, ref: int, src: bool)

  /** `sent`, `writes`, `delivered` and `credited` record the calls to
      CmiSendPersistentMsg, to writeToBuffer, of the user's handler, and the credits
      sent. */
  datatype Channel = Channel(slot: Slot, granting: bool, net: seq<Packet>, recv: seq<Buffer>,
                             sent: seq<nat>, writes: seq<Write>, delivered: seq<Write>, credited: seq<nat>)

  datatype Action =
    | Send(m: nat, rdma: set<nat>)     // rdma: the buffers reached by a one-sided put
    | Grant(rdma: set<nat>)
    | Arrive(j: nat, rdma: set<nat>)
    | Reference(i: nat)
    | Free(i: nat)

  ghost function Packets(ws: seq<Write>, rdma: set<nat>): seq<Packet> {
    seq(|ws|, k requires 0 <= k < |ws| =>
      if ws[k].buf in rdma then Put(ws[k].buf, ws[k].msg) else Note(ws[k].buf, ws[k].msg, true))
  }

  ghost predicate Enabled(c: Channel, a: Action) {
    && SlotOk(c.slot) && |c.recv| == BUFFERS
    && match a
       case Send(m, rdma) => true
       case Grant(rdma) => c.granting
       case Arrive(j, rdma) => j < |c.net| && c.net[j].buf < BUFFERS
       case Reference(i) => i < BUFFERS && c.recv[i].ref > REFBASE
       case Free(i) => i < BUFFERS && c.recv[i].ref > REFBASE
  }

  ghost function Wrote(c: Channel, r: (Slot, seq<Write>), rdma: set<nat>): Channel {
    c.(slot := r.0, net := c.net + Packets(r.1, rdma), writes := c.writes + r.1)
  }

  ghost function Arrived(c: Channel, p: Packet, rdma: set<nat>): Channel
    requires SlotOk(c.slot) && |c.recv| == BUFFERS && p.buf < BUFFERS
  {
    match p
    case Put(b, m) =>
      c.(recv := c.recv[b := c.recv[b].(content := m)], net := c.net + [Note(b, m, false)])
    case Note(b, m, inline) =>
      var bytes := if inline then m else c.recv[b].content;
      c.(recv := c.recv[b := Buffer(bytes, REFBASE + 1, true)], delivered := c.delivered + [Write(b, bytes)])
    case Credit(b) => Wrote(c, CreditOn(c.slot, b), rdma)
  }

  /** CmiFree of a receive buffer, with CmiPersistentReleaseBuffer. */
  ghost function Freed(c: Channel, i: nat): Channel
    requires i < |c.recv|
  {
    var b := c.recv[i];
    if b.ref == REFBASE + 1 && b.src then
      c.(recv := c.recv[i := b.(ref := b.ref - 1, src := false)],
         net := c.net + [Credit(i)], credited := c.credited + [i])
    else c.(recv := c.recv[i := b.(ref := b.ref - 1)])
  }

  ghost function Apply(c: Channel, a: Action): Channel
    requires Enabled(c, a)
  {
    match a
    case Send(m, rdma) => Wrote(c.(sent := c.sent + [m]), SendOn(c.slot, m), rdma)
    case Grant(rdma) => Wrote(c.(granting := false), GrantOn(c.slot), rdma)
    case Arrive(j, rdma) => Arrived(c.(net := c.net[..j] + c.net[j + 1..]), c.net[j], rdma)
    case Reference(i) => c.(recv := c.recv[i := c.recv[i].(ref := c.recv[i].ref + 1)])
    case Free(i) => Freed(c, i)
  }

  ghost predicate Fresh(c: Channel) {
    && c.slot == Slot(false, [false, false, false, false], 0, []) && c.granting && c.net == []
    && |c.recv| == BUFFERS && (forall i :: 0 <= i < BUFFERS ==> c.recv[i].ref == REFBASE && !c.recv[i].src)
    && c.sent == [] && c.writes == [] && c.delivered == [] && c.credited == []
  }

  // ----- counting

  ghost function One(b: bool): nat { if b then 1 else 0 }

  ghost function Count(net: seq<Packet>, i: nat): nat {
    if net == [] then 0 else Count(net[..|net| - 1], i) + One(net[|net| - 1].buf == i)
  }

  ghost function Times(ws: seq<Write>, i: nat): nat {
    if ws == [] then 0 else Times(ws[..|ws| - 1], i) + One(ws[|ws| - 1].buf == i)
  }

  ghost function Credits(s: seq<nat>, i: nat): nat {
    if s == [] then 0 else Credits(s[..|s| - 1], i) + One(s[|s| - 1] == i)
  }

  /** The messages that are on their way to the receiver. */
  ghost function Flying(net: seq<Packet>): multiset<Write> {
    if net == [] then multiset{}
    else Flying(net[..|net| - 1]) + FlyingOne(net[|net| - 1])
  }

  ghost function FlyingOne(p: Packet): multiset<Write> {
    if p.Credit? then multiset{} else multiset{Write(p.buf, p.msg)}
  }

  ghost function Msgs(ws: seq<Write>): seq<nat> {
    seq(|ws|, k requires 0 <= k < |ws| => ws[k].msg)
  }

  lemma CountSnoc(net: seq<Packet>, p: Packet, i: nat)
    ensures Count(net + [p], i) == Count(net, i) + One(p.buf == i)
    ensures Flying(net + [p]) == Flying(net) + FlyingOne(p)
  {
    assert (net + [p])[..|net|] == net;
  }

  lemma CountConcat(a: seq<Packet>, b: seq<Packet>, i: nat)
    ensures Count(a + b, i) == Count(a, i) + Count(b, i) && Flying(a + b) == Flying(a) + Flying(b)
  {
    CountBoth(a, b, i);
    FlyingBoth(a, b);
  }

  lemma {:induction false} CountBoth(a: seq<Packet>, b: seq<Packet>, i: nat)
    ensures Count(a + b, i) == Count(a, i) + Count(b, i)
    decreases |b|
  {
    if b == [] {
      assert a + b == a;
    } else {
      CountBoth(a, b[..|b| - 1], i);
      assert (a + b)[..|a + b| - 1] == a + b[..|b| - 1];
    }
  }

  lemma {:induction false} FlyingBoth(a: seq<Packet>, b: seq<Packet>)
    ensures Flying(a + b) == Flying(a) + Flying(b)
    decreases |b|
  {
    hide FlyingOne;
    if b == [] {
      assert a + b == a;
    } else {
      FlyingBoth(a, b[..|b| - 1]);
      assert (a + b)[..|a + b| - 1] == a + b[..|b| - 1];
    }
  }

  lemma CountRemove(net: seq<Packet>, j: nat, i: nat)
    requires j < |net|
    ensures Count(net, i) == Count(net[..j] + net[j + 1..], i) + One(net[j].buf == i)
    ensures Flying(net) == Flying(net[..j] + net[j + 1..]) + FlyingOne(net[j])
  {
    assert net == net[..j] + [net[j]] + net[j + 1..];
    CountConcat(net[..j] + [net[j]], net[j + 1..], i);
    CountSnoc(net[..j], net[j], i);
    CountConcat(net[..j], net[j + 1..], i);
  }

  lemma {:induction false} CountPackets(ws: seq<Write>, rdma: set<nat>, i: nat)
    ensures Count(Packets(ws, rdma), i) == Times(ws, i) && Flying(Packets(ws, rdma)) == multiset(ws)
    decreases |ws|
  {
    if ws != [] {
      var n := |ws| - 1;
      CountPackets(ws[..n], rdma, i);
      assert Packets(ws, rdma)[..n] == Packets(ws[..n], rdma);
      OneMore(ws);
    }
  }

  lemma OneMore(ws: seq<Write>)
    requires ws != []
    ensures multiset(ws) == multiset(ws[..|ws| - 1]) + multiset{ws[|ws| - 1]}
  {
    assert ws == ws[..|ws| - 1] + [ws[|ws| - 1]];
  }

  lemma {:induction false} TimesCons(w: Write, ws: seq<Write>, i: nat)
    ensures Times([w] + ws, i) == One(w.buf == i) + Times(ws, i)
    decreases |ws|
  {
    if ws == [] {
      assert [w] + ws == [w] && [w][..0] == [];
    } else {
      var n := |ws| - 1;
      TimesCons(w, ws[..n], i);
      assert ([w] + ws)[..n + 1] == [w] + ws[..n];
    }
  }

  // ----- what flushing does

  /** The writes of a flush take the oldest messages, in order. */
  lemma {:induction false} FlushOrder(s: Slot)
    requires SlotOk(s)
    ensures Msgs(Flush(s).1) + Flush(s).0.pending == s.pending
    decreases |s.pending|
  {
    hide FreeFrom;
    var idx := FreeFrom(s.busy, s.next, 0);
    if s.pending != [] && idx >= 0 {
      var s1 := Claim(s, idx).(pending := s.pending[1..]);
      FlushOrder(s1);
      assert Msgs([Write(idx, s.pending[0])] + Flush(s1).1) == [s.pending[0]] + Msgs(Flush(s1).1);
      assert [s.pending[0]] + Msgs(Flush(s1).1) + Flush(s1).0.pending ==
             [s.pending[0]] + (Msgs(Flush(s1).1) + Flush(s1).0.pending);
    }
  }

  /** Each goes into a buffer of its own that was free. */
  lemma {:induction false} FlushClaims(s: Slot, i: nat)
    requires SlotOk(s) && i < BUFFERS
    ensures Times(Flush(s).1, i) + One(s.busy[i]) == One(Flush(s).0.busy[i])
    ensures forall k :: 0 <= k < |Flush(s).1| ==> Flush(s).1[k].buf < BUFFERS
    decreases |s.pending|
  {
    hide FreeFrom;
    var idx := FreeFrom(s.busy, s.next, 0);
    if s.pending != [] && idx >= 0 {
      var s1 := Claim(s, idx).(pending := s.pending[1..]);
      FlushClaims(s1, i);
      TimesCons(Write(idx, s.pending[0]), Flush(s1).1, i);
    }
  }

  /** It stops only for want of a message or of a buffer. */
  lemma {:induction false} FlushStops(s: Slot)
    requires SlotOk(s)
    ensures Flush(s).0.pending != [] ==> forall k :: 0 <= k < BUFFERS ==> Flush(s).0.busy[k]
    decreases |s.pending|
  {
    var idx := FreeFrom(s.busy, s.next, 0);
    NoneFree(s.busy, s.next);
    hide FreeFrom;
    if s.pending != [] && idx >= 0 {
      FlushStops(Claim(s, idx).(pending := s.pending[1..]));
    }
  }

  // ----- the invariant

  ghost predicate Held(c: Channel, i: nat) {
    i < |c.recv| && c.recv[i].ref > REFBASE
  }

  /** A buffer is busy exactly when one put, notification, delivered message or
      credit exists for it. */
  ghost predicate BufferOk(c: Channel, i: nat) {
    && i < |c.recv| && i < |c.slot.busy|
    && Count(c.net, i) + One(Held(c, i)) == One(c.slot.busy[i])
    && c.recv[i].ref >= REFBASE && (c.recv[i].src <==> Held(c, i))
    && Times(c.delivered, i) == Credits(c.credited, i) + One(Held(c, i))
  }

  ghost predicate PacketOk(c: Channel, p: Packet) {
    p.buf < BUFFERS && p.buf < |c.recv| && (p.Note? && !p.inline ==> c.recv[p.buf].content == p.msg)
  }

  ghost predicate SlotInv(c: Channel) {
    && SlotOk(c.slot) && c.granting == !c.slot.setup
    && Msgs(c.writes) + c.slot.pending == c.sent
    && (c.slot.setup && c.slot.pending != [] ==> forall k :: 0 <= k < BUFFERS ==> c.slot.busy[k])
    && (!c.slot.setup ==> forall k :: 0 <= k < BUFFERS ==> !c.slot.busy[k])
  }

  ghost predicate Inv(c: Channel) {
    && |c.recv| == BUFFERS && SlotInv(c)
    && (forall i: nat :: i < BUFFERS ==> BufferOk(c, i))
    && (forall j :: 0 <= j < |c.net| ==> PacketOk(c, c.net[j]))
    && Flying(c.net) + multiset(c.delivered) == multiset(c.writes)
  }

  /** A change of the slot that only adds writes into free buffers. */
  ghost predicate Adds(s: Slot, r: (Slot, seq<Write>)) {
    && SlotOk(s) && SlotOk(r.0)
    && (forall i: nat :: i < BUFFERS ==> Times(r.1, i) + One(s.busy[i]) == One(r.0.busy[i]))
    && (forall k :: 0 <= k < |r.1| ==> r.1[k].buf < BUFFERS)
  }

  lemma FlushAdds(s: Slot)
    requires SlotOk(s)
    ensures Adds(s, Flush(s))
  {
    hide Flush, Times;
    FlushClaims(s, 0);
    forall i: nat | i < BUFFERS ensures Times(Flush(s).1, i) + One(s.busy[i]) == One(Flush(s).0.busy[i]) {
      FlushClaims(s, i);
    }
  }

  /** The buffers and packets after some writes: `c` has its slot's busy flags as
      they were before. */
  lemma WroteBuffers(c: Channel, r: (Slot, seq<Write>), rdma: set<nat>)
    requires |c.recv| == BUFFERS && Adds(c.slot, r)
    requires forall i: nat :: i < BUFFERS ==> BufferOk(c, i)
    requires forall j :: 0 <= j < |c.net| ==> PacketOk(c, c.net[j])
    requires Flying(c.net) + multiset(c.delivered) == multiset(c.writes)
    ensures var c' := Wrote(c, r, rdma);
            && (forall i: nat :: i < BUFFERS ==> BufferOk(c', i))
            && (forall j :: 0 <= j < |c'.net| ==> PacketOk(c', c'.net[j]))
            && Flying(c'.net) + multiset(c'.delivered) == multiset(c'.writes)
  {
    hide Count, Times, Credits, Flying;
    var c' := Wrote(c, r, rdma);
    forall i: nat | i < BUFFERS ensures BufferOk(c', i) {
      assert BufferOk(c, i);
      CountConcat(c.net, Packets(r.1, rdma), i);
      CountPackets(r.1, rdma, i);
    }
    CountConcat(c.net, Packets(r.1, rdma), 0);
    CountPackets(r.1, rdma, 0);
    forall j | 0 <= j < |c'.net| ensures PacketOk(c', c'.net[j]) {
      if j < |c.net| {
        assert PacketOk(c, c.net[j]);
      }
    }
  }

  // ----- every step keeps it

  lemma MsgsConcat(a: seq<Write>, b: seq<Write>)
    ensures Msgs(a + b) == Msgs(a) + Msgs(b)
  {
  }

  /** What a flush does, all together. */
  lemma Flushed(s: Slot)
    requires SlotOk(s)
    ensures Adds(s, Flush(s)) && Msgs(Flush(s).1) + Flush(s).0.pending == s.pending
    ensures Flush(s).0.pending != [] ==> forall k :: 0 <= k < BUFFERS ==> Flush(s).0.busy[k]
  {
    FlushAdds(s);
    FlushOrder(s);
    FlushStops(s);
  }

  lemma SendDoes(s: Slot, m: nat)
    requires SlotOk(s) && (s.setup && s.pending != [] ==> forall k :: 0 <= k < BUFFERS ==> s.busy[k])
    requires !s.setup ==> forall k :: 0 <= k < BUFFERS ==> !s.busy[k]
    ensures var r := SendOn(s, m);
            && Adds(s, r) && Msgs(r.1) + r.0.pending == s.pending + [m]
            && (s.setup && r.0.pending != [] ==> forall k :: 0 <= k < BUFFERS ==> r.0.busy[k])
            && (!s.setup ==> forall k :: 0 <= k < BUFFERS ==> !r.0.busy[k])
  {
    var s1 := s.(pending := s.pending + [m]);
    Flushed(s1);
    NoneFree(s.busy, s.next);
    hide Flush, FreeFrom;
    var idx := FreeFrom(s.busy, s.next, 0);
    assert Msgs([]) == [];
    if idx >= 0 {
      assert Msgs([Write(idx, m)]) == [m];
      forall i: nat ensures Times([Write(idx, m)], i) == One(idx == i) {
        TimesCons(Write(idx, m), [], i);
        assert [Write(idx, m)] + [] == [Write(idx, m)];
      }
    }
  }

  lemma SendStep(c: Channel, m: nat, rdma: set<nat>)
    requires Inv(c)
    ensures Inv(Apply(c, Send(m, rdma)))
  {
    hide Count, Times, Credits, Flying, SendOn, Msgs;
    var r := SendOn(c.slot, m);
    SendDoes(c.slot, m);
    var c1 := c.(sent := c.sent + [m]);
    forall i: nat | i < BUFFERS ensures BufferOk(c1, i) {
      assert BufferOk(c, i);
    }
    forall j | 0 <= j < |c1.net| ensures PacketOk(c1, c1.net[j]) {
      assert PacketOk(c, c.net[j]);
    }
    WroteBuffers(c1, r, rdma);
    MsgsConcat(c.writes, r.1);
    assert Msgs(c.writes) + (Msgs(r.1) + r.0.pending) == Msgs(c.writes) + Msgs(r.1) + r.0.pending;
    assert Msgs(c.writes) + (c.slot.pending + [m]) == Msgs(c.writes) + c.slot.pending + [m];
  }

  lemma GrantStep(c: Channel, rdma: set<nat>)
    requires Inv(c) && c.granting
    ensures Inv(Apply(c, Grant(rdma)))
  {
    hide Count, Times, Credits, Flying, Flush, Msgs;
    var s := c.slot.(setup := true);
    var r := Flush(s);
    Flushed(s);
    var c1 := c.(granting := false);
    forall i: nat | i < BUFFERS ensures BufferOk(c1, i) {
      assert BufferOk(c, i);
    }
    forall j | 0 <= j < |c1.net| ensures PacketOk(c1, c1.net[j]) {
      assert PacketOk(c, c.net[j]);
    }
    WroteBuffers(c1, r, rdma);
    MsgsConcat(c.writes, r.1);
    assert Msgs(c.writes) + (Msgs(r.1) + r.0.pending) == Msgs(c.writes) + Msgs(r.1) + r.0.pending;
  }

  /** Taking a packet out of the network. */
  lemma Without(c: Channel, j: nat, i: nat)
    requires Inv(c) && j < |c.net| && i < BUFFERS
    ensures var rest := c.net[..j] + c.net[j + 1..];
            && Count(c.net, i) == Count(rest, i) + One(c.net[j].buf == i)
            && Flying(c.net) == Flying(rest) + FlyingOne(c.net[j])
            && BufferOk(c, i) && PacketOk(c, c.net[j])
            && (forall k :: 0 <= k < |rest| ==> PacketOk(c, rest[k]))
  {
    hide Count, Flying;
    CountRemove(c.net, j, i);
    var rest := c.net[..j] + c.net[j + 1..];
    forall k | 0 <= k < |rest| ensures PacketOk(c, rest[k]) {
      assert rest[k] == c.net[if k < j then k else k + 1];
    }
  }

  lemma {:induction false} Someone(net: seq<Packet>, k: nat)
    requires k < |net|
    ensures Count(net, net[k].buf) > 0
  {
    if k < |net| - 1 {
      Someone(net[..|net| - 1], k);
    }
  }

  /** With one packet taken out, no other exists for its buffer, and the buffer is
      not held: it may be overwritten. */
  lemma Alone(c: Channel, j: nat)
    requires Inv(c) && j < |c.net|
    ensures c.net[j].buf < BUFFERS && !Held(c, c.net[j].buf) && c.slot.busy[c.net[j].buf]
    ensures var rest := c.net[..j] + c.net[j + 1..]; forall k :: 0 <= k < |rest| ==> rest[k].buf != c.net[j].buf
  {
    hide Count;
    assert PacketOk(c, c.net[j]);
    var b := c.net[j].buf;
    Without(c, j, b);
    var rest := c.net[..j] + c.net[j + 1..];
    forall k | 0 <= k < |rest| ensures rest[k].buf != b {
      Someone(rest, k);
    }
  }

  lemma PutStep(c: Channel, j: nat, rdma: set<nat>)
    requires Inv(c) && j < |c.net| && c.net[j].buf < BUFFERS && c.net[j].Put?
    ensures Inv(Apply(c, Arrive(j, rdma)))
  {
    hide Count, Times, Credits, Flying, Msgs;
    Alone(c, j);
    var p, rest, c' := c.net[j], c.net[..j] + c.net[j + 1..], Apply(c, Arrive(j, rdma));
    var note := Note(p.buf, p.msg, false);
    forall i: nat | i < BUFFERS ensures BufferOk(c', i) {
      Without(c, j, i);
      CountSnoc(rest, note, i);
    }
    Without(c, j, 0);
    CountSnoc(rest, note, 0);
    forall k | 0 <= k < |c'.net| ensures PacketOk(c', c'.net[k]) {
      if k < |rest| {
        assert PacketOk(c, rest[k]);
      }
    }
  }

  lemma NoteStep(c: Channel, j: nat, rdma: set<nat>)
    requires Inv(c) && j < |c.net| && c.net[j].buf < BUFFERS && c.net[j].Note?
    ensures Inv(Apply(c, Arrive(j, rdma)))
    ensures Apply(c, Arrive(j, rdma)).delivered == c.delivered + [Write(c.net[j].buf, c.net[j].msg)]
  {
    hide Count, Credits, Flying, Msgs;
    Alone(c, j);
    var p, rest, c' := c.net[j], c.net[..j] + c.net[j + 1..], Apply(c, Arrive(j, rdma));
    var w := Write(p.buf, p.msg);
    Without(c, j, 0);
    assert c'.delivered[..|c.delivered|] == c.delivered;
    forall i: nat | i < BUFFERS ensures BufferOk(c', i) {
      Without(c, j, i);
    }
    forall k | 0 <= k < |c'.net| ensures PacketOk(c', c'.net[k]) {
      assert PacketOk(c, rest[k]);
    }
  }

  lemma CreditStep(c: Channel, j: nat, rdma: set<nat>)
    requires Inv(c) && j < |c.net| && c.net[j].buf < BUFFERS && c.net[j].Credit?
    ensures Inv(Apply(c, Arrive(j, rdma)))
  {
    hide Count, Times, Credits, Flying, Flush, Msgs;
    Alone(c, j);
    var b, rest := c.net[j].buf, c.net[..j] + c.net[j + 1..];
    var s := c.slot.(busy := c.slot.busy[b := false]);
    var r := Flush(s);
    Flushed(s);
    var c1 := c.(slot := s, net := rest);
    Without(c, j, 0);
    forall i: nat | i < BUFFERS ensures BufferOk(c1, i) {
      Without(c, j, i);
    }
    forall k | 0 <= k < |c1.net| ensures PacketOk(c1, c1.net[k]) {
      assert PacketOk(c, rest[k]);
    }
    WroteBuffers(c1, r, rdma);
    MsgsConcat(c.writes, r.1);
    assert Msgs(c.writes) + (Msgs(r.1) + r.0.pending) == Msgs(c.writes) + Msgs(r.1) + r.0.pending;
    assert Apply(c, Arrive(j, rdma)) == Wrote(c1, r, rdma);
  }

  /** A change to one buffer's count that leaves it held, or as held as before. */
  lemma CountOnly(c: Channel, i: nat, ref: int)
    requires Inv(c) && i < BUFFERS && c.recv[i].ref > REFBASE && ref > REFBASE
    ensures Inv(c.(recv := c.recv[i := c.recv[i].(ref := ref)]))
  {
    hide Count, Times, Credits, Flying, Msgs;
    var c' := c.(recv := c.recv[i := c.recv[i].(ref := ref)]);
    forall k: nat | k < BUFFERS ensures BufferOk(c', k) {
      assert BufferOk(c, k);
    }
    forall k | 0 <= k < |c'.net| ensures PacketOk(c', c'.net[k]) {
      assert PacketOk(c, c.net[k]);
    }
  }

  lemma CreditsSnoc(s: seq<nat>, b: nat, i: nat)
    ensures Credits(s + [b], i) == Credits(s, i) + One(b == i)
  {
    assert (s + [b])[..|s|] == s;
  }

  /** The last reference goes: the buffer is handed back with one credit. */
  lemma LastFree(c: Channel, i: nat)
    requires Inv(c) && i < BUFFERS && c.recv[i].ref == REFBASE + 1
    ensures c.recv[i].src && Inv(Freed(c, i)) && Freed(c, i).net == c.net + [Credit(i)]
  {
    hide Count, Times, Credits, Flying, Msgs;
    assert BufferOk(c, i);
    var c' := Freed(c, i);
    forall k: nat | k < BUFFERS ensures BufferOk(c', k) {
      assert BufferOk(c, k);
      CountSnoc(c.net, Credit(i), k);
      CreditsSnoc(c.credited, i, k);
    }
    CountSnoc(c.net, Credit(i), 0);
    forall k | 0 <= k < |c'.net| ensures PacketOk(c', c'.net[k]) {
      if k < |c.net| {
        assert PacketOk(c, c.net[k]);
      }
    }
  }

  lemma RefStep(c: Channel, a: Action)
    requires Inv(c) && Enabled(c, a) && (a.Reference? || a.Free?)
    ensures Inv(Apply(c, a))
  {
    hide Inv;
    if a.Free? && c.recv[a.i].ref == REFBASE + 1 {
      LastFree(c, a.i);
    } else {
      CountOnly(c, a.i, if a.Free? then c.recv[a.i].ref - 1 else c.recv[a.i].ref + 1);
    }
  }

  lemma StepKeeps(c: Channel, a: Action)
    requires Inv(c) && Enabled(c, a)
    ensures Inv(Apply(c, a))
  {
    hide Inv, Apply;
    match a
    case Send(m, rdma) => SendStep(c, m, rdma);
    case Grant(rdma) => GrantStep(c, rdma);
    case Arrive(j, rdma) =>
      match c.net[j] {
        case Put(b, m) => PutStep(c, j, rdma);
        case Note(b, m, inline) => NoteStep(c, j, rdma);
        case Credit(b) => CreditStep(c, j, rdma);
      }
    case Reference(i) => RefStep(c, a);
    case Free(i) => RefStep(c, a);
  }

  // ----- whole runs

  ghost predicate Legal(c: Channel, acts: seq<Action>)
    decreases |acts|, 0
  {
    acts == [] || (Legal(c, acts[..|acts| - 1]) && Enabled(After(c, acts[..|acts| - 1]), acts[|acts| - 1]))
  }

  ghost function After(c: Channel, acts: seq<Action>): Channel
    requires Legal(c, acts)
    decreases |acts|, 1
  {
    if acts == [] then c else Apply(After(c, acts[..|acts| - 1]), acts[|acts| - 1])
  }

  lemma {:induction false} RunKeeps(c: Channel, acts: seq<Action>)
    requires Fresh(c) && Legal(c, acts)
    ensures Inv(After(c, acts))
    decreases |acts|
  {
    if acts == [] {
      assert Msgs([]) == [];
      forall i: nat | i < BUFFERS ensures BufferOk(c, i) {
      }
    } else {
      hide Inv, Apply, Enabled;
      RunKeeps(c, acts[..|acts| - 1]);
      StepKeeps(After(c, acts[..|acts| - 1]), acts[|acts| - 1]);
    }
  }

  // ----- who holds a buffer

  /** A step that hands a message over in buffer `i`. */
  ghost predicate HandsOver(c: Channel, a: Action, i: nat) {
    a.Arrive? && a.j < |c.net| && c.net[a.j].Note? && c.net[a.j].buf == i
  }

  /** The references to buffer `i` that the program has: one from the delivery, one
      more for every CmiReference since and one fewer for every CmiFree. */
  ghost function Owned(c: Channel, acts: seq<Action>, i: nat): int
    requires Legal(c, acts)
  {
    if acts == [] then 0
    else
      var n, a := |acts| - 1, acts[|acts| - 1];
      if HandsOver(After(c, acts[..n]), a, i) then 1
      else Owned(c, acts[..n], i) + (if a == Reference(i) then 1 else if a == Free(i) then -1 else 0)
  }

  lemma RefAfter(c: Channel, a: Action, i: nat)
    requires Enabled(c, a) && i < BUFFERS
    ensures |Apply(c, a).recv| == BUFFERS
    ensures Apply(c, a).recv[i].ref ==
            if HandsOver(c, a, i) then REFBASE + 1
            else c.recv[i].ref + (if a == Reference(i) then 1 else if a == Free(i) then -1 else 0)
  {
    hide Flush, SendOn, Packets;
  }

  /** The biased count is the number of references the program has. */
  lemma {:induction false} RefIsOwned(c: Channel, acts: seq<Action>, i: nat)
    requires Fresh(c) && Legal(c, acts) && i < BUFFERS
    ensures |After(c, acts).recv| == BUFFERS && After(c, acts).recv[i].ref == REFBASE + Owned(c, acts, i)
    ensures Held(After(c, acts), i) <==> Owned(c, acts, i) > 0
    decreases |acts|
  {
    hide Apply, HandsOver;
    if acts != [] {
      RefIsOwned(c, acts[..|acts| - 1], i);
      RefAfter(After(c, acts[..|acts| - 1]), acts[|acts| - 1], i);
    }
  }

  /** A free sends a credit, one, for its buffer, if and only if it gave up the last
      reference. */
  lemma CreditIff(c: Channel, acts: seq<Action>, i: nat)
    requires Fresh(c) && Legal(c, acts) && Enabled(After(c, acts), Free(i))
    ensures var r := After(c, acts);
            Apply(r, Free(i)).net == r.net + if Owned(c, acts, i) == 1 then [Credit(i)] else []
  {
    RunKeeps(c, acts);
    RefIsOwned(c, acts, i);
    assert BufferOk(After(c, acts), i);
    hide Count, Times, Credits, Flying, Msgs, Legal, After, Owned;
  }

  /** Credit safety: on every run each buffer is busy exactly when one thing exists
      for it, and each delivery from it has been credited once, except the one that
      the program still has a reference to. */
  lemma CreditSafety(c: Channel, acts: seq<Action>, i: nat)
    requires Fresh(c) && Legal(c, acts) && i < BUFFERS
    ensures var r, owned := After(c, acts), Owned(c, acts, i) > 0;
            && |r.slot.busy| == BUFFERS && Count(r.net, i) + One(owned) == One(r.slot.busy[i])
            && Times(r.delivered, i) == Credits(r.credited, i) + One(owned)
  {
    RunKeeps(c, acts);
    RefIsOwned(c, acts, i);
    assert BufferOk(After(c, acts), i);
  }

  /** No step changes the bytes of a buffer while the program has a reference to
      it. */
  lemma NotOverwritten(c: Channel, acts: seq<Action>, a: Action, i: nat)
    requires Fresh(c) && Legal(c, acts) && Enabled(After(c, acts), a) && i < BUFFERS && Owned(c, acts, i) > 0
    ensures |After(c, acts).recv| == |Apply(After(c, acts), a).recv| == BUFFERS
    ensures Apply(After(c, acts), a).recv[i].content == After(c, acts).recv[i].content
  {
    RunKeeps(c, acts);
    RefIsOwned(c, acts, i);
    var r := After(c, acts);
    hide Legal, After, Owned;
    if a.Arrive? {
      Alone(r, a.j);
    }
  }

  /** The message last handed over in buffer `i`. */
  ghost function LastIn(ws: seq<Write>, i: nat): nat {
    if ws == [] then 0 else if ws[|ws| - 1].buf == i then ws[|ws| - 1].msg else LastIn(ws[..|ws| - 1], i)
  }

  lemma HandedOver(c: Channel, a: Action, i: nat)
    requires Enabled(c, a) && i < BUFFERS
    ensures |Apply(c, a).recv| == BUFFERS
    ensures HandsOver(c, a, i) ==> LastIn(Apply(c, a).delivered, i) == Apply(c, a).recv[i].content
    ensures !HandsOver(c, a, i) ==> LastIn(Apply(c, a).delivered, i) == LastIn(c.delivered, i)
  {
    hide Flush, SendOn, Packets;
    assert Apply(c, a).delivered != c.delivered ==> Apply(c, a).delivered[..|c.delivered|] == c.delivered;
  }

  /** So while the program has a reference it reads the message it was given. */
  lemma {:induction false} HolderReads(c: Channel, acts: seq<Action>, i: nat)
    requires Fresh(c) && Legal(c, acts) && i < BUFFERS && Owned(c, acts, i) > 0
    ensures |After(c, acts).recv| == BUFFERS && After(c, acts).recv[i].content == LastIn(After(c, acts).delivered, i)
    decreases |acts|
  {
    hide Apply, HandsOver, LastIn, Fresh, Enabled;
    if acts != [] {
      var n := |acts| - 1;
      var r, a := After(c, acts[..n]), acts[n];
      HandedOver(r, a, i);
      if !HandsOver(r, a, i) {
        if a == Reference(i) {
          ReferenceNeeds(c, acts[..n], i);
        }
        HolderReads(c, acts[..n], i);
        NotOverwritten(c, acts[..n], a, i);
      }
    }
  }

  lemma ReferenceNeeds(c: Channel, acts: seq<Action>, i: nat)
    requires Fresh(c) && Legal(c, acts) && Enabled(After(c, acts), Reference(i))
    ensures Owned(c, acts, i) > 0
  {
    RefIsOwned(c, acts, i);
  }

  /** What a handler is given is what was written for it: nothing is lost, repeated
      or mixed up. */
  lemma NothingLost(c: Channel, acts: seq<Action>)
    requires Fresh(c) && Legal(c, acts)
    ensures var r := After(c, acts); multiset(r.delivered) + Flying(r.net) == multiset(r.writes)
  {
    RunKeeps(c, acts);
  }

  /** Order: buffers are written in the order of the sends, across setup and
      credits; what is not yet written is pending, in the same order. */
  lemma WritesInOrder(c: Channel, acts: seq<Action>)
    requires Fresh(c) && Legal(c, acts)
    ensures var r := After(c, acts); Msgs(r.writes) + r.slot.pending == r.sent
  {
    RunKeeps(c, acts);
  }

  /** No stall: once the channel is set up, a message waits only while all four
      buffers are in use; so none waits when nothing is under way or held. */
  lemma NoStall(c: Channel, acts: seq<Action>)
    requires Fresh(c) && Legal(c, acts) && After(c, acts).slot.setup
    ensures var r := After(c, acts);
            && (r.slot.pending != [] ==> forall i: nat :: i < BUFFERS ==> Count(r.net, i) > 0 || Owned(c, acts, i) > 0)
            && (r.net == [] && (forall i: nat :: i < BUFFERS ==> Owned(c, acts, i) <= 0) ==>
                  r.slot.pending == [] && Msgs(r.writes) == r.sent)
  {
    RunKeeps(c, acts);
    var r := After(c, acts);
    forall i: nat | i < BUFFERS ensures Held(r, i) <==> Owned(c, acts, i) > 0 {
      RefIsOwned(c, acts, i);
    }
    hide Count, Times, Credits, Flying, Legal, After, Owned;
    assert Msgs(r.writes) + [] == Msgs(r.writes);
    forall i: nat | i < BUFFERS ensures r.slot.busy[i] ==> Count(r.net, i) > 0 || Held(r, i) {
      assert BufferOk(r, i);
    }
    if r.net == [] && (forall i: nat :: i < BUFFERS ==> !Held(r, i)) {
      NonePresent(r);
    }
  }

  lemma NonePresent(r: Channel)
    requires Inv(r) && r.net == [] && forall i: nat :: i < BUFFERS ==> !Held(r, i)
    ensures r.slot.setup ==> r.slot.pending == []
  {
    assert BufferOk(r, 0) && !Held(r, 0);
  }

  /** At most four messages are outstanding: those under way, in either direction,
      and those the program still has references to together. */
  lemma AtMostFour(c: Channel, acts: seq<Action>)
    requires Fresh(c) && Legal(c, acts)
    ensures var r := After(c, acts);
            |r.net| + One(Owned(c, acts, 0) > 0) + One(Owned(c, acts, 1) > 0) + One(Owned(c, acts, 2) > 0)
            + One(Owned(c, acts, 3) > 0) <= BUFFERS
  {
    RunKeeps(c, acts);
    var r := After(c, acts);
    forall i: nat | i < BUFFERS ensures Held(r, i) <==> Owned(c, acts, i) > 0 {
      RefIsOwned(c, acts, i);
    }
    hide Count, Times, Credits, Flying, Legal, After, Owned;
    assert BufferOk(r, 0) && BufferOk(r, 1) && BufferOk(r, 2) && BufferOk(r, 3);
    FourCounts(r.net);
  }

  lemma {:induction false} FourCounts(net: seq<Packet>)
    requires forall j :: 0 <= j < |net| ==> net[j].buf < BUFFERS
    ensures |net| == Count(net, 0) + Count(net, 1) + Count(net, 2) + Count(net, 3)
  {
    if net != [] {
      FourCounts(net[..|net| - 1]);
    }
  }

  // ----- everything gets there

  /** How far the packets under way and the waiting messages still have to go. */
  ghost function ToGo(net: seq<Packet>): nat {
    if net == [] then 0 else ToGo(net[..|net| - 1]) + if net[|net| - 1].Put? then 2 else 1
  }

  ghost function Work(c: Channel): nat {
    ToGo(c.net) + 3 * |c.slot.pending|
  }

  lemma {:induction false} ToGoConcat(a: seq<Packet>, b: seq<Packet>)
    ensures ToGo(a + b) == ToGo(a) + ToGo(b)
    decreases |b|
  {
    if b == [] {
      assert a + b == a;
    } else {
      ToGoConcat(a, b[..|b| - 1]);
      assert (a + b)[..|a + b| - 1] == a + b[..|b| - 1];
    }
  }

  lemma {:induction false} ToGoPackets(ws: seq<Write>, rdma: set<nat>)
    ensures ToGo(Packets(ws, rdma)) <= 2 * |ws|
    decreases |ws|
  {
    if ws != [] {
      ToGoPackets(ws[..|ws| - 1], rdma);
      assert Packets(ws, rdma)[..|ws| - 1] == Packets(ws[..|ws| - 1], rdma);
    }
  }

  lemma ToGoRemove(net: seq<Packet>, j: nat)
    requires j < |net|
    ensures ToGo(net) == ToGo(net[..j] + net[j + 1..]) + if net[j].Put? then 2 else 1
  {
    hide ToGo;
    var p := net[j];
    assert net == net[..j] + [p] + net[j + 1..];
    ToGoConcat(net[..j] + [p], net[j + 1..]);
    ToGoConcat(net[..j], [p]);
    ToGoConcat(net[..j], net[j + 1..]);
    ToGoOne(p);
  }

  /** Every arrival brings the channel nearer to rest: packets cannot arrive for
      ever. */
  lemma ArrivalProgress(c: Channel, j: nat, rdma: set<nat>)
    requires Enabled(c, Arrive(j, rdma))
    ensures Work(Apply(c, Arrive(j, rdma))) < Work(c)
  {
    hide Flush, ToGo, Packets;
    var p, rest := c.net[j], c.net[..j] + c.net[j + 1..];
    ToGoRemove(c.net, j);
    match p
    case Put(b, m) =>
      ToGoConcat(rest, [Note(b, m, false)]);
      ToGoOne(Note(b, m, false));
    case Note(b, m, inline) =>
    case Credit(b) =>
      var s := c.slot.(busy := c.slot.busy[b := false]);
      FlushMoves(s);
      ToGoConcat(rest, Packets(Flush(s).1, rdma));
      ToGoPackets(Flush(s).1, rdma);
  }

  lemma ToGoOne(p: Packet)
    ensures ToGo([p]) == if p.Put? then 2 else 1
  {
    assert [p][..0] == [];
  }

  lemma FlushMoves(s: Slot)
    requires SlotOk(s)
    ensures |Flush(s).1| + |Flush(s).0.pending| == |s.pending|
  {
    FlushOrder(s);
    hide Flush;
    assert |Msgs(Flush(s).1)| == |Flush(s).1|;
  }

  /** At rest, with setup done, nothing under way and nothing held, every message sent
      has been handed over exactly once. */
  lemma AllHandedOver(c: Channel, acts: seq<Action>)
    requires Fresh(c) && Legal(c, acts) && After(c, acts).slot.setup && After(c, acts).net == []
    requires forall i: nat :: i < BUFFERS ==> Owned(c, acts, i) <= 0
    ensures var r := After(c, acts); multiset(Msgs(r.delivered)) == multiset(r.sent)
  {
    NoStall(c, acts);
    NothingLost(c, acts);
    var r := After(c, acts);
    hide Legal, After, Owned, Count;
    SameMsgs(r.delivered, r.writes);
  }

  lemma {:induction false} SameMsgs(a: seq<Write>, b: seq<Write>)
    requires multiset(a) == multiset(b)
    ensures multiset(Msgs(a)) == multiset(Msgs(b))
    decreases |a|
  {
    if a == [] {
      assert |multiset(b)| == |b|;
    } else {
      var n := |a| - 1;
      var x := a[n];
      OneMore(a);
      assert x in multiset(b);
      var k :| 0 <= k < |b| && b[k] == x;
      var rest := b[..k] + b[k + 1..];
      TakeOut(b, k);
      Cancel(multiset(a[..n]), multiset(rest), multiset{x});
      SameMsgs(a[..n], rest);
      MsgsTaken(b, k);
      assert Msgs(a) == Msgs(a[..n]) + [x.msg];
    }
  }

  lemma MsgsTaken(b: seq<Write>, k: nat)
    requires k < |b|
    ensures multiset(Msgs(b)) == multiset(Msgs(b[..k] + b[k + 1..])) + multiset{b[k].msg}
  {
    TakeOut(Msgs(b), k);
    assert Msgs(b[..k] + b[k + 1..]) == Msgs(b)[..k] + Msgs(b)[k + 1..];
  }

  /** The messages of the calls to CmiSendPersistentMsg. */
  function Sends(acts: seq<Action>): seq<nat> {
    if acts == [] then []
    else Sends(acts[..|acts| - 1]) + if acts[|acts| - 1].Send? then [acts[|acts| - 1].m] else []
  }

  predicate Granted(acts: seq<Action>) {
    acts != [] && (acts[|acts| - 1].Grant? || Granted(acts[..|acts| - 1]))
  }

  lemma LogAfter(c: Channel, a: Action)
    requires Enabled(c, a)
    ensures Apply(c, a).sent == c.sent + (if a.Send? then [a.m] else [])
    ensures Apply(c, a).granting == (c.granting && !a.Grant?) && Apply(c, a).slot.setup == (c.slot.setup || a.Grant?)
  {
    hide Packets, FreeFrom;
  }

  lemma {:induction false} CallLogs(c: Channel, acts: seq<Action>)
    requires Fresh(c) && Legal(c, acts)
    ensures var r := After(c, acts);
            r.sent == Sends(acts) && (r.slot.setup <==> Granted(acts)) && (r.granting <==> !Granted(acts))
    decreases |acts|
  {
    hide Apply, Enabled;
    if acts != [] {
      CallLogs(c, acts[..|acts| - 1]);
      LogAfter(After(c, acts[..|acts| - 1]), acts[|acts| - 1]);
    }
  }

  /** What was sent is what the calls gave, in order, and the channel is set up by its
      one grant; both can happen at any time. */
  lemma CallsCount(c: Channel, acts: seq<Action>)
    requires Fresh(c) && Legal(c, acts)
    ensures var r := After(c, acts);
            && r.sent == Sends(acts) && (r.slot.setup <==> Granted(acts))
            && (forall rdma :: Enabled(r, Grant(rdma)) <==> !Granted(acts))
            && (forall m, rdma :: Enabled(r, Send(m, rdma)))
  {
    RunKeeps(c, acts);
    CallLogs(c, acts);
    hide After, Legal, Sends, Granted, BufferOk, PacketOk, Flying, Msgs;
  }
}
