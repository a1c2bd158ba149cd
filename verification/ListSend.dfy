/** List sends (CmiSyncListSend in src/collectives.cpp): the destinations are grouped
    by process, each other process is sent one message with the ranks in a trailer,
    and a handler there fans it out. */
module ListSend {
  import opened Collections
  import opened SpanTree

  type Byte = x: nat | x < 256

  // ----- 32-bit words and 16-bit handlers

  const WORD: nat := 0x1_0000_0000

  function ReadWord(b: seq<Byte>, at: nat): nat
    requires at + 4 <= |b|
  {
    var b0: int, b1: int, b2: int, b3: int := b[at], b[at + 1], b[at + 2], b[at + 3];
    b0 + 0x100 * b1 + 0x1_0000 * b2 + 0x100_0000 * b3
  }

  function WriteWord(b: seq<Byte>, at: nat, w: nat): (r: seq<Byte>)
    requires at + 4 <= |b| && w < WORD
    ensures |r| == |b| && forall i :: 0 <= i < |b| && !(at <= i < at + 4) ==> r[i] == b[i]
  {
    b[at := w % 0x100][at + 1 := w / 0x100 % 0x100][at + 2 := w / 0x1_0000 % 0x100][at + 3 := w / 0x100_0000 % 0x100]
  }

  lemma WordRoundTrip(b: seq<Byte>, at: nat, w: nat)
    requires at + 4 <= |b| && w < WORD
    ensures ReadWord(WriteWord(b, at, w), at) == w
  {
    Digits(w);
  }

  lemma Digits(w: nat)
    requires w < WORD
    ensures w == w % 0x100 + 0x100 * (w / 0x100 % 0x100) + 0x1_0000 * (w / 0x1_0000 % 0x100)
                 + 0x100_0000 * (w / 0x100_0000 % 0x100)
  {
  }

  lemma WordElsewhere(b: seq<Byte>, at: nat, w: nat, other: nat)
    requires at + 4 <= |b| && w < WORD && other + 4 <= |b| && (other + 4 <= at || at + 4 <= other)
    ensures ReadWord(WriteWord(b, at, w), other) == ReadWord(b, other)
  {
  }

  /** A CmiInt2 as a CmiUInt4, and back. */
  function Widen(h: int): nat
    requires -0x8000 <= h < 0x8000
  {
    if h < 0 then h + WORD else h
  }

  function Narrow(w: nat): int {
    var x := w % 0x1_0000;
    if x >= 0x8000 then x - 0x1_0000 else x
  }

  lemma HandlerRoundTrip(h: int)
    requires -0x8000 <= h < 0x8000
    ensures Widen(h) < WORD && Narrow(Widen(h)) == h
  {
  }

  // ----- messages

  /** sizeof(CmiMessageHeader) */
  const HEADER: nat := 24
  /** Cmi_fanoutHandler */
  const FANOUT: int := 1
  const FIXED: nat := 2

  /** The header fields that matter here, and the bytes behind the header. */
  datatype Message = Message(handler: int, size: nat, bytes: seq<Byte>)

  /** A buffer of `total` bytes on its way to a PE. */
  datatype Send = Send(dest: nat, total: nat, msg: Message)

  /** What a PE is handed. */
  datatype Delivery = Delivery(pe: nat, handler: int, len: nat, bytes: seq<Byte>)

  ghost predicate UserMessage(m: Message) {
    -0x8000 <= m.handler < 0x8000 && m.handler != FANOUT
  }

  function TrailerOffset(len: nat): (off: nat)
    ensures len <= off < len + 8 && off % 8 == 0
  {
    (len + 7) / 8 * 8
  }

  function TotalSize(len: nat, nranks: nat): nat {
    TrailerOffset(len) + (FIXED + nranks) * 4
  }

  /** Where a trailer word lies behind the header. */
  function WordAt(len: nat, i: nat): nat
    requires len >= HEADER
  {
    TrailerOffset(len) - HEADER + 4 * i
  }

  /** `b` holds the payload's bytes and a trailer with the given words. */
  ghost predicate Trailer(b: seq<Byte>, len: nat, bytes: seq<Byte>, words: seq<nat>) {
    && len >= HEADER && |bytes| == len - HEADER && |bytes| <= |b| && b[..|bytes|] == bytes
    && WordAt(len, |words|) == |b|
    && (forall i :: 0 <= i < |words| ==> ReadWord(b, WordAt(len, i)) == words[i])
  }

  ghost function Ranks(size: nat, pes: seq<nat>): seq<nat>
    requires size > 0
  {
    seq(|pes|, i requires 0 <= i < |pes| => RankOf(size, pes[i]))
  }

  ghost function TrailerWords(size: nat, pes: seq<nat>, handler: int): seq<nat>
    requires size > 0 && -0x8000 <= handler < 0x8000
  {
    [|pes|, Widen(handler)] + Ranks(size, pes)
  }

  /** The words below index `n` have been written. */
  ghost predicate Written(b: seq<Byte>, len: nat, bytes: seq<Byte>, words: seq<nat>, n: nat) {
    && len >= HEADER && |bytes| == len - HEADER && |bytes| <= |b| && b[..|bytes|] == bytes
    && WordAt(len, |words|) == |b| && n <= |words|
    && (forall i :: 0 <= i < n ==> ReadWord(b, WordAt(len, i)) == words[i])
  }

  lemma WriteNext(b: seq<Byte>, len: nat, bytes: seq<Byte>, words: seq<nat>, n: nat)
    requires Written(b, len, bytes, words, n) && n < |words| && words[n] < WORD
    ensures WordAt(len, n) + 4 <= |b| && Written(WriteWord(b, WordAt(len, n), words[n]), len, bytes, words, n + 1)
  {
    hide ReadWord;
    var b' := WriteWord(b, WordAt(len, n), words[n]);
    WordRoundTrip(b, WordAt(len, n), words[n]);
    forall i | 0 <= i < n ensures ReadWord(b', WordAt(len, i)) == words[i] {
      WordElsewhere(b, WordAt(len, n), words[n], WordAt(len, i));
    }
    assert b'[..|bytes|] == b[..|bytes|];
  }

  /** The message for one other process: the payload, padding, and the trailer
      [nranks][handler][ranks...]. `garbage` is what the allocated buffer held. */
  method BuildFanout(size: nat, pes: seq<nat>, len: nat, msg: Message, garbage: seq<Byte>) returns (f: Message)
    requires size > 0 && size < WORD && |pes| < WORD && len >= HEADER && UserMessage(msg) && |msg.bytes| == len - HEADER
    requires |garbage| == TotalSize(len, |pes|) - HEADER
    ensures f.handler == FANOUT && f.size == len
    ensures Trailer(f.bytes, len, msg.bytes, TrailerWords(size, pes, msg.handler))
  {
    hide WriteWord, ReadWord, TrailerOffset;
    ghost var words := TrailerWords(size, pes, msg.handler);
    HandlerRoundTrip(msg.handler);
    var b := msg.bytes + garbage[|msg.bytes|..];
    assert b[..|msg.bytes|] == msg.bytes;
    WriteNext(b, len, msg.bytes, words, 0);
    b := WriteWord(b, WordAt(len, 0), |pes|);
    WriteNext(b, len, msg.bytes, words, 1);
    b := WriteWord(b, WordAt(len, 1), Widen(msg.handler));
    var i := 0;
    while i < |pes|
      invariant 0 <= i <= |pes| && Written(b, len, msg.bytes, words, FIXED + i)
    {
      Parts(size, pes[i]);
      WriteNext(b, len, msg.bytes, words, FIXED + i);
      b := WriteWord(b, WordAt(len, FIXED + i), RankOf(size, pes[i]));
      i := i + 1;
    }
    f := Message(FANOUT, len, b);
  }

  // ----- the handler on the other side

  /** The trailer and the ranks it announces lie within the message. */
  ghost predicate Readable(m: Message) {
    && m.size >= HEADER && WordAt(m.size, FIXED) <= |m.bytes|
    && ReadWord(m.bytes, WordAt(m.size, 0)) > 0
    && WordAt(m.size, FIXED + ReadWord(m.bytes, WordAt(m.size, 0))) <= |m.bytes|
  }

  /** The copy that the fan-out handler makes for the i-th listed rank. */
  ghost function CopyAt(size: nat, dest: nat, m: Message, i: nat): Delivery
    requires size > 0 && m.size >= HEADER && WordAt(m.size, FIXED + i + 1) <= |m.bytes|
  {
    Delivery(NodeOf(size, dest) * size + ReadWord(m.bytes, WordAt(m.size, FIXED + i)),
             Narrow(ReadWord(m.bytes, WordAt(m.size, 1))), m.size, m.bytes[..m.size - HEADER])
  }

  /** What becomes of a buffer: a plain message is handed to its PE, a fan-out
      message to the ranks of its trailer, the first of them last. */
  ghost function Handled(size: nat, s: Send): seq<Delivery>
    requires size > 0
  {
    if s.msg.handler != FANOUT then [Delivery(s.dest, s.msg.handler, s.total, s.msg.bytes)]
    else if !Readable(s.msg) then []
    else
      var n := ReadWord(s.msg.bytes, WordAt(s.msg.size, 0));
      seq(n, i requires 0 <= i < n => CopyAt(size, s.dest, s.msg, if i + 1 < n then i + 1 else 0))
  }

  /** CmiFanoutHandler */
  method FanoutHandler(size: nat, dest: nat, total: nat, m: Message) returns (out: seq<Delivery>)
    requires size > 0 && m.handler == FANOUT && Readable(m)
    ensures out == Handled(size, Send(dest, total, m))
  {
    hide ReadWord, TrailerOffset;
    var len := m.size;
    var nranks := ReadWord(m.bytes, WordAt(len, 0));
    var h := Narrow(ReadWord(m.bytes, WordAt(len, 1)));
    var firstPe := NodeOf(size, dest) * size;
    var copy := m.bytes[..len - HEADER];
    out := [];
    var i := 1;
    while i < nranks
      invariant 1 <= i <= nranks && |out| == i - 1
      invariant forall k :: 0 <= k < i - 1 ==> out[k] == CopyAt(size, dest, m, k + 1)
    {
      out := out + [Delivery(firstPe + ReadWord(m.bytes, WordAt(len, FIXED + i)), h, len, copy)];
      i := i + 1;
    }
    out := out + [Delivery(firstPe + ReadWord(m.bytes, WordAt(len, FIXED)), h, len, copy)];
    assert out[nranks - 1] == CopyAt(size, dest, m, 0);
  }

  // ----- every destination gets its copies

  /** The plain loop: one copy for each entry of the list. */
  ghost function Plain(pes: seq<nat>, len: nat, msg: Message): seq<Delivery> {
    seq(|pes|, i requires 0 <= i < |pes| => Delivery(pes[i], msg.handler, len, msg.bytes))
  }

  /** Round trip: the message built for a process is handed out as the plain loop
      would have, first destination last. */
  lemma FanoutRoundTrip(size: nat, dest: nat, pes: seq<nat>, len: nat, msg: Message, f: Message, total: nat)
    requires size > 0 && pes != [] && UserMessage(msg) && f.handler == FANOUT && f.size == len
    requires Trailer(f.bytes, len, msg.bytes, TrailerWords(size, pes, msg.handler))
    requires forall i :: 0 <= i < |pes| ==> NodeOf(size, pes[i]) == NodeOf(size, dest)
    ensures Readable(f) && Handled(size, Send(dest, total, f)) == Plain(pes[1..] + [pes[0]], len, msg)
  {
    hide ReadWord, TrailerOffset, RankOf, NodeOf;
    var words := TrailerWords(size, pes, msg.handler);
    HandlerRoundTrip(msg.handler);
    assert ReadWord(f.bytes, WordAt(len, 0)) == words[0];
    assert ReadWord(f.bytes, WordAt(len, 1)) == words[1];
    forall i | 0 <= i < |pes| ensures CopyAt(size, dest, f, i) == Delivery(pes[i], msg.handler, len, msg.bytes) {
      assert ReadWord(f.bytes, WordAt(len, FIXED + i)) == words[FIXED + i];
      Parts(size, pes[i]);
    }
  }

  ghost function HandledAll(size: nat, sends: seq<Send>): multiset<Delivery>
    requires size > 0
  {
    if sends == [] then multiset{}
    else HandledAll(size, sends[..|sends| - 1]) + multiset(Handled(size, sends[|sends| - 1]))
  }

  lemma HandledSnoc(size: nat, sends: seq<Send>, s: Send)
    requires size > 0
    ensures HandledAll(size, sends + [s]) == HandledAll(size, sends) + multiset(Handled(size, s))
  {
    assert (sends + [s])[..|sends|] == sends;
  }

  lemma PlainSnoc(pes: seq<nat>, p: nat, len: nat, msg: Message)
    ensures multiset(Plain(pes + [p], len, msg)) ==
            multiset(Plain(pes, len, msg)) + multiset{Delivery(p, msg.handler, len, msg.bytes)}
  {
    assert Plain(pes + [p], len, msg) == Plain(pes, len, msg) + [Delivery(p, msg.handler, len, msg.bytes)];
  }

  lemma PlainConcat(a: seq<nat>, b: seq<nat>, len: nat, msg: Message)
    ensures multiset(Plain(a + b, len, msg)) == multiset(Plain(a, len, msg)) + multiset(Plain(b, len, msg))
  {
    assert Plain(a + b, len, msg) == Plain(a, len, msg) + Plain(b, len, msg);
  }

  lemma HandledPlain(size: nat, p: nat, len: nat, msg: Message)
    requires size > 0 && UserMessage(msg)
    ensures Handled(size, Send(p, len, msg)) == [Delivery(p, msg.handler, len, msg.bytes)]
  {
  }

  /** The plain loop: the message itself to each PE. */
  ghost function Each(pes: seq<nat>, len: nat, msg: Message): (r: seq<Send>)
    ensures |r| == |pes| && forall i :: 0 <= i < |pes| ==> r[i] == Send(pes[i], len, msg)
  {
    seq(|pes|, i requires 0 <= i < |pes| => Send(pes[i], len, msg))
  }

  /** How many buffers go to a process. */
  ghost function SendsTo(size: nat, sends: seq<Send>, node: nat): nat
    requires size > 0
  {
    if sends == [] then 0
    else SendsTo(size, sends[..|sends| - 1], node) + if NodeOf(size, sends[|sends| - 1].dest) == node then 1 else 0
  }

  lemma {:induction false} SendsConcat(size: nat, a: seq<Send>, b: seq<Send>, node: nat)
    requires size > 0
    ensures SendsTo(size, a + b, node) == SendsTo(size, a, node) + SendsTo(size, b, node)
    decreases |b|
  {
    hide NodeOf;
    if b == [] {
      assert a + b == a;
    } else {
      SendsConcat(size, a, b[..|b| - 1], node);
      assert (a + b)[..|a + b| - 1] == a + b[..|b| - 1];
    }
  }

  lemma {:induction false} NoSends(size: nat, a: seq<Send>, node: nat)
    requires size > 0 && forall k :: 0 <= k < |a| ==> NodeOf(size, a[k].dest) != node
    ensures SendsTo(size, a, node) == 0
  {
    hide NodeOf;
    if a != [] {
      NoSends(size, a[..|a| - 1], node);
    }
  }

  ghost predicate Names(size: nat, pes: seq<nat>, node: nat)
    requires size > 0
  {
    exists k :: 0 <= k < |pes| && NodeOf(size, pes[k]) == node
  }

  /** One buffer for every other process that the list names, and plain ones for this
      process. */
  ghost predicate OnePerProcess(size: nat, myNode: nat, pes: seq<nat>, len: nat, msg: Message, sends: seq<Send>)
    requires size > 0
  {
    && (forall q: nat :: q != myNode ==> SendsTo(size, sends, q) == if Names(size, pes, q) then 1 else 0)
    && (forall k :: 0 <= k < |sends| ==> Names(size, pes, NodeOf(size, sends[k].dest)))
    && (forall k :: 0 <= k < |sends| && NodeOf(size, sends[k].dest) == myNode ==>
          sends[k] == Send(sends[k].dest, len, msg))
  }

  lemma NothingGrouped(size: nat, myNode: nat, pes: seq<nat>, len: nat, msg: Message)
    requires size > 0
    ensures OnePerProcess(size, myNode, pes[..0], len, msg, [])
  {
  }

  /** The next group's buffers. */
  lemma GroupSent(size: nat, myNode: nat, pes: seq<nat>, group: seq<nat>, len: nat, msg: Message,
                  sends: seq<Send>, more: seq<Send>, node: nat)
    requires size > 0 && OnePerProcess(size, myNode, pes, len, msg, sends) && !Names(size, pes, node)
    requires group != [] && forall k :: 0 <= k < |group| ==> NodeOf(size, group[k]) == node
    requires if node == myNode then more == Each(group, len, msg) else |more| == 1 && more[0].dest == group[0]
    ensures OnePerProcess(size, myNode, pes + group, len, msg, sends + more)
  {
    hide NodeOf, SendsTo;
    forall q: nat ensures Names(size, pes + group, q) <==> Names(size, pes, q) || q == node {
      NamesConcat(size, pes, group, node, q);
    }
    forall q: nat | q != myNode
      ensures SendsTo(size, sends + more, q) == if Names(size, pes + group, q) then 1 else 0
    {
      SendsConcat(size, sends, more, q);
      if q == node {
        OneSend(size, more, q);
      } else {
        NoSends(size, more, q);
      }
    }
  }

  lemma OneSend(size: nat, a: seq<Send>, node: nat)
    requires size > 0 && |a| == 1 && NodeOf(size, a[0].dest) == node
    ensures SendsTo(size, a, node) == 1
  {
    assert a[..0] == [];
  }

  lemma NamesConcat(size: nat, a: seq<nat>, b: seq<nat>, node: nat, q: nat)
    requires size > 0 && b != [] && forall k :: 0 <= k < |b| ==> NodeOf(size, b[k]) == node
    ensures Names(size, a + b, q) <==> Names(size, a, q) || q == node
  {
    hide NodeOf;
    if Names(size, a, q) {
      var k :| 0 <= k < |a| && NodeOf(size, a[k]) == q;
      assert (a + b)[k] == a[k];
    }
    assert (a + b)[|a|] == b[0];
  }

  /** CmiSyncSend to each PE of a list. */
  method SendEach(size: nat, pes: seq<nat>, len: nat, msg: Message) returns (sends: seq<Send>)
    requires size > 0 && UserMessage(msg)
    ensures sends == Each(pes, len, msg)
    ensures HandledAll(size, sends) == multiset(Plain(pes, len, msg))
  {
    hide HandledAll, Plain, Handled;
    sends := [];
    var i := 0;
    NothingSent(size, pes, len, msg);
    while i < |pes|
      invariant 0 <= i <= |pes| && HandledAll(size, sends) == multiset(Plain(pes[..i], len, msg))
      invariant sends == Each(pes[..i], len, msg)
    {
      HandledSnoc(size, sends, Send(pes[i], len, msg));
      HandledPlain(size, pes[i], len, msg);
      PlainSnoc(pes[..i], pes[i], len, msg);
      assert pes[..i] + [pes[i]] == pes[..i + 1];
      sends := sends + [Send(pes[i], len, msg)];
      i := i + 1;
    }
    assert pes[..i] == pes;
  }

  /** CmiListSendToProcess */
  method SendToProcess(size: nat, pes: seq<nat>, len: nat, msg: Message, garbage: seq<Byte>) returns (sends: seq<Send>)
    requires size > 0 && size < WORD && |pes| < WORD && pes != [] && UserMessage(msg)
    requires len >= HEADER ==> |msg.bytes| == len - HEADER && |garbage| == TotalSize(len, |pes|) - HEADER
    requires forall i :: 0 <= i < |pes| ==> NodeOf(size, pes[i]) == NodeOf(size, pes[0])
    ensures HandledAll(size, sends) == multiset(Plain(pes, len, msg))
    ensures |pes| == 1 || len < HEADER ==> sends == Each(pes, len, msg)
    ensures |pes| > 1 && len >= HEADER ==>
              |sends| == 1 && sends[0].dest == pes[0] && sends[0].total == TotalSize(len, |pes|)
  {
    if |pes| == 1 || len < HEADER {
      sends := SendEach(size, pes, len, msg);
      return;
    }
    var f := BuildFanout(size, pes, len, msg, garbage);
    var s := Send(pes[0], TotalSize(len, |pes|), f);
    sends := [s];
    hide Trailer;
    FanoutRoundTrip(size, pes[0], pes, len, msg, f, s.total);
    HandledSnoc(size, [], s);
    assert [] + [s] == [s];
    PlainConcat(pes[1..], [pes[0]], len, msg);
    PlainConcat([pes[0]], pes[1..], len, msg);
    assert [pes[0]] + pes[1..] == pes;
  }

  /** The PEs at the listed places. */
  ghost function Picked(pes: seq<nat>, order: seq<nat>): seq<nat>
    requires forall i :: 0 <= i < |order| ==> order[i] < |pes|
  {
    seq(|order|, i requires 0 <= i < |order| => pes[order[i]])
  }

  /** What std::stable_sort leaves: the places of the list, each once, ordered by
      process. */
  ghost predicate Grouped(size: nat, pes: seq<nat>, order: seq<nat>) {
    && size > 0 && |order| == |pes| && Distinct(order)
    && (forall i :: 0 <= i < |order| ==> order[i] < |pes|)
    && (forall i, j :: 0 <= i < j < |order| ==> NodeOf(size, pes[order[i]]) <= NodeOf(size, pes[order[j]]))
  }

  /** A list of places that has each of 0..n-1 once picks every PE as often as the
      list names it. */
  lemma {:induction false} PickedAll(pes: seq<nat>, order: seq<nat>)
    requires |order| == |pes| && Distinct(order) && forall i :: 0 <= i < |order| ==> order[i] < |pes|
    ensures multiset(Picked(pes, order)) == multiset(pes)
    decreases |pes|
  {
    if pes != [] {
      var n := |pes| - 1;
      HasLast(order, n);
      var k :| 0 <= k < |order| && order[k] == n;
      var rest := order[..k] + order[k + 1..];
      LeaveOut(order, k, n);
      hide Distinct, Picked;
      PickedAll(pes[..n], rest);
      PickedSplit(pes, order, k);
      assert pes == pes[..n] + [pes[n]];
    }
  }

  lemma LeaveOut(order: seq<nat>, k: nat, n: nat)
    requires k < |order| && Distinct(order) && order[k] == n && forall i :: 0 <= i < |order| ==> order[i] <= n
    ensures var rest := order[..k] + order[k + 1..]; Distinct(rest) && forall i :: 0 <= i < |rest| ==> rest[i] < n
  {
    var rest := order[..k] + order[k + 1..];
    forall i | 0 <= i < |rest| ensures rest[i] < n {
      assert rest[i] == order[if i < k then i else i + 1];
    }
  }

  lemma PickedSplit(pes: seq<nat>, order: seq<nat>, k: nat)
    requires pes != [] && k < |order| && order[k] == |pes| - 1
    requires forall i :: 0 <= i < |order| ==> order[i] < |pes|
    requires var rest := order[..k] + order[k + 1..]; forall i :: 0 <= i < |rest| ==> rest[i] < |pes| - 1
    ensures multiset(Picked(pes, order))
            == multiset(Picked(pes[..|pes| - 1], order[..k] + order[k + 1..])) + multiset{pes[|pes| - 1]}
  {
    var n, rest := |pes| - 1, order[..k] + order[k + 1..];
    var a, b := Picked(pes, order[..k]), Picked(pes, order[k + 1..]);
    forall i | 0 <= i < |rest| ensures Picked(pes[..n], rest)[i] == (a + b)[i] {
    }
    assert Picked(pes[..n], rest) == a + b;
    assert Picked(pes, order) == a + [pes[n]] + b;
  }

  lemma HasLast(order: seq<nat>, n: nat)
    requires |order| == n + 1 && Distinct(order) && forall i :: 0 <= i < |order| ==> order[i] <= n
    ensures exists k :: 0 <= k < |order| && order[k] == n
  {
    var s := set x | x in order;
    SetOfDistinct(order, s);
    if n !in order {
      UpTo(s, n);
    }
  }

  lemma PlainTakeOut(b: seq<nat>, k: nat, len: nat, msg: Message)
    requires k < |b|
    ensures multiset(Plain(b, len, msg))
            == multiset(Plain(b[..k] + b[k + 1..], len, msg)) + multiset{Delivery(b[k], msg.handler, len, msg.bytes)}
  {
    var p := Plain(b, len, msg);
    TakeOut(p, k);
    assert Plain(b[..k] + b[k + 1..], len, msg) == p[..k] + p[k + 1..];
  }

  lemma {:induction false} SamePlain(a: seq<nat>, b: seq<nat>, len: nat, msg: Message)
    requires multiset(a) == multiset(b)
    ensures multiset(Plain(a, len, msg)) == multiset(Plain(b, len, msg))
    decreases |a|
  {
    if a == [] {
      assert |multiset(b)| == 0;
    } else {
      hide Plain;
      assert a[0] in multiset(b);
      var k :| 0 <= k < |b| && b[k] == a[0];
      TakeOut(a, 0);
      TakeOut(b, k);
      Cancel(multiset(a[..0] + a[1..]), multiset(b[..k] + b[k + 1..]), multiset{a[0]});
      SamePlain(a[..0] + a[1..], b[..k] + b[k + 1..], len, msg);
      PlainTakeOut(a, 0, len, msg);
      PlainTakeOut(b, k, len, msg);
    }
  }

  lemma {:induction false} HandledConcat(size: nat, a: seq<Send>, b: seq<Send>)
    requires size > 0
    ensures HandledAll(size, a + b) == HandledAll(size, a) + HandledAll(size, b)
    decreases |b|
  {
    hide Handled;
    if b == [] {
      assert a + b == a;
    } else {
      var n := |b| - 1;
      HandledConcat(size, a, b[..n]);
      assert (a + b)[..|a + b| - 1] == a + b[..n];
    }
  }

  /** CmiSyncListSend: whatever the list, with or without duplicates, the buffers it
      sends hand every destination exactly the copies that the plain loop would.
      `heap` is what freshly allocated buffers hold. */
  method SyncListSend(nodes: nat, size: nat, myNode: nat, pes: seq<nat>, len: nat, msg: Message, persistent: bool,
                      order: seq<nat>, heap: nat -> seq<Byte>)
    returns (sends: seq<Send>)
    requires size > 0 && size < WORD && |pes| < WORD && UserMessage(msg) && Grouped(size, pes, order)
    requires len >= HEADER ==> |msg.bytes| == len - HEADER && forall n: nat :: |heap(n)| == TotalSize(len, n) - HEADER
    ensures HandledAll(size, sends) == multiset(Plain(pes, len, msg))
    ensures |pes| <= 1 || nodes == 1 || persistent ==> sends == Each(pes, len, msg)
    ensures |pes| > 1 && nodes != 1 && !persistent && len >= HEADER ==>
              OnePerProcess(size, myNode, pes, len, msg, sends)
  {
    hide HandledAll, Plain, Picked, NodeOf, TotalSize, OnePerProcess, Names, Each;
    if |pes| <= 1 || nodes == 1 || persistent {
      sends := SendEach(size, pes, len, msg);
      return;
    }
    sends := [];
    ghost var picked := Picked(pes, order);
    var i := 0;
    PickedIs(pes, order);
    NothingSent(size, picked, len, msg);
    NothingGrouped(size, myNode, picked, len, msg);
    while i < |pes|
      invariant 0 <= i <= |pes| && HandledAll(size, sends) == multiset(Plain(picked[..i], len, msg))
      invariant len >= HEADER ==> OnePerProcess(size, myNode, picked[..i], len, msg, sends)
      invariant 0 < i < |pes| ==> NodeOf(size, picked[i - 1]) != NodeOf(size, picked[i])
    {
      var node, group, j := NextGroup(size, pes, order, i);
      var more := SendGroup(size, node == myNode, group, len, msg, heap(|group|));
      HandledConcat(size, sends, more);
      PlainConcat(picked[..i], group, len, msg);
      NewProcess(size, pes, order, i);
      if len >= HEADER {
        GroupSent(size, myNode, picked[..i], group, len, msg, sends, more, node);
      }
      assert picked[..i] + group == picked[..j];
      sends := sends + more;
      i := j;
    }
    assert picked[..i] == picked;
    PickedAll(pes, order);
    SamePlain(picked, pes, len, msg);
    if len >= HEADER {
      SameNames(size, myNode, picked, pes, len, msg, sends);
    }
  }

  /** The same PEs in another order. */
  lemma SameNames(size: nat, myNode: nat, a: seq<nat>, b: seq<nat>, len: nat, msg: Message, sends: seq<Send>)
    requires size > 0 && multiset(a) == multiset(b) && OnePerProcess(size, myNode, a, len, msg, sends)
    ensures OnePerProcess(size, myNode, b, len, msg, sends)
  {
    hide NodeOf, SendsTo;
    forall q: nat ensures Names(size, a, q) <==> Names(size, b, q) {
      if Names(size, a, q) {
        NamesIn(size, a, b, q);
      }
      if Names(size, b, q) {
        NamesIn(size, b, a, q);
      }
    }
  }

  lemma NamesIn(size: nat, a: seq<nat>, b: seq<nat>, q: nat)
    requires size > 0 && multiset(a) == multiset(b) && Names(size, a, q)
    ensures Names(size, b, q)
  {
    hide NodeOf;
    var k :| 0 <= k < |a| && NodeOf(size, a[k]) == q;
    assert a[k] in multiset(a);
    assert a[k] in b;
  }

  /** What one process's destinations are sent. */
  method SendGroup(size: nat, mine: bool, group: seq<nat>, len: nat, msg: Message, garbage: seq<Byte>)
    returns (sends: seq<Send>)
    requires size > 0 && size < WORD && |group| < WORD && group != [] && UserMessage(msg)
    requires len >= HEADER ==> |msg.bytes| == len - HEADER && |garbage| == TotalSize(len, |group|) - HEADER
    requires forall i :: 0 <= i < |group| ==> NodeOf(size, group[i]) == NodeOf(size, group[0])
    ensures HandledAll(size, sends) == multiset(Plain(group, len, msg))
    ensures mine ==> sends == Each(group, len, msg)
    ensures !mine && len >= HEADER ==> |sends| == 1 && sends[0].dest == group[0]
  {
    hide HandledAll, Plain, TotalSize;
    if mine {
      sends := SendEach(size, group, len, msg);
    } else {
      sends := SendToProcess(size, group, len, msg, garbage);
    }
  }

  /** The destinations from the `i`-th on that live in the same process. */
  method NextGroup(size: nat, pes: seq<nat>, order: seq<nat>, i: nat) returns (node: nat, group: seq<nat>, j: nat)
    requires Grouped(size, pes, order) && i < |pes|
    ensures i < j <= |pes| && group == Picked(pes, order)[i..j] && node == NodeOf(size, Picked(pes, order)[i])
    ensures forall k :: 0 <= k < |group| ==> NodeOf(size, group[k]) == node
    ensures j < |pes| ==> NodeOf(size, Picked(pes, order)[j]) != node
  {
    hide NodeOf, Picked;
    ghost var picked := Picked(pes, order);
    PickedIs(pes, order);
    node := NodeOf(size, pes[order[i]]);
    group := [pes[order[i]]];
    j := i + 1;
    assert picked[i..j] == [picked[i]];
    while j < |pes| && NodeOf(size, pes[order[j]]) == node
      invariant i < j <= |pes| && group == picked[i..j]
      invariant forall k :: 0 <= k < |group| ==> NodeOf(size, group[k]) == node
    {
      assert picked[i..j + 1] == picked[i..j] + [picked[j]];
      group := group + [pes[order[j]]];
      j := j + 1;
    }
  }

  /** In an ordered list a process whose group begins has not come up before. */
  lemma NewProcess(size: nat, pes: seq<nat>, order: seq<nat>, i: nat)
    requires Grouped(size, pes, order) && i < |pes|
    requires i > 0 ==> NodeOf(size, Picked(pes, order)[i - 1]) != NodeOf(size, Picked(pes, order)[i])
    ensures !Names(size, Picked(pes, order)[..i], NodeOf(size, Picked(pes, order)[i]))
  {
    hide NodeOf;
    var picked := Picked(pes, order);
    forall k | 0 <= k < i ensures NodeOf(size, picked[k]) != NodeOf(size, picked[i]) {
      if k < i - 1 {
        assert NodeOf(size, pes[order[k]]) <= NodeOf(size, pes[order[i - 1]]);
      }
      assert i > 0 ==> NodeOf(size, pes[order[i - 1]]) <= NodeOf(size, pes[order[i]]);
    }
  }

  lemma PickedIs(pes: seq<nat>, order: seq<nat>)
    requires forall i :: 0 <= i < |order| ==> order[i] < |pes|
    ensures |Picked(pes, order)| == |order| && forall i :: 0 <= i < |order| ==> Picked(pes, order)[i] == pes[order[i]]
  {
  }

  lemma NothingSent(size: nat, picked: seq<nat>, len: nat, msg: Message)
    requires size > 0
    ensures HandledAll(size, []) == multiset(Plain(picked[..0], len, msg))
  {
  }
}
