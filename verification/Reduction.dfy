/** Tree reductions over PEs (src/collectives.cpp): CmiReduce on the spanning tree
    and CmiListReduce on a list of PEs, any number of them in flight, with 32-bit
    ids, a ring of 32 records per PE, and messages that arrive in any order.
    A contribution is tagged with the PE and the reduction it was made for; the code
    never looks at the tags, so they show what a merged message really holds. */
module Reduction {
  import opened Collections
  import opened SpanTree

  const IDS: nat := 0x1_0000_0000
  const SLOTS: nat := 32

  /** Ids of a counter repeat after HALF calls, slots after WINDOW. */
  const HALF: nat := IDS / 2
  const WINDOW: nat := SLOTS / 2

  // ----- reductions and their ids

  /** The n-th reduction of a counter: the runtime's own (CmiReduce) or the one for
      ids that programs request (CmiListReduce). */
  datatype Key = Key(request: bool, n: nat)

  function Id(key: Key): (id: nat)
    ensures id < IDS
  {
    ((if key.request then 1 else 0) + 2 * key.n) % IDS
  }

  function Slot(id: nat): (s: nat)
    ensures s < SLOTS
  {
    id % SLOTS
  }

  /** Both counters wrap without leaving their own slots: two reductions have the
      same id exactly when they come from the same counter 2^31 calls apart, and the
      same slot exactly when they come from the same counter 16 calls apart. */
  lemma IdsAndSlots(a: Key, b: Key)
    ensures Id(a) == Id(b) <==> a.request == b.request && (a.n - b.n) % (IDS / 2) == 0
    ensures Slot(Id(a)) == Slot(Id(b)) <==> a.request == b.request && (a.n - b.n) % (SLOTS / 2) == 0
  {
    var x := (if a.request then 1 else 0) + 2 * a.n;
    var y := (if b.request then 1 else 0) + 2 * b.n;
    SameId(x, y);
    SlotOfId(x);
    SlotOfId(y);
    SameSlot(x, y);
    if a.request == b.request {
      Halves(a.n - b.n);
    }
  }

  lemma SameId(x: nat, y: nat)
    ensures x % IDS == y % IDS <==> (x - y) % IDS == 0
    ensures (x - y) % IDS == 0 ==> (x - y) % 2 == 0
  {
    if x % 0x1_0000_0000 == y % 0x1_0000_0000 {
      IdsAgree(x, y);
    }
    if (x - y) % 0x1_0000_0000 == 0 {
      IdsDiffer(x, y);
    }
  }

  lemma IdsAgree(x: nat, y: nat)
    requires x % 0x1_0000_0000 == y % 0x1_0000_0000
    ensures (x - y) % 0x1_0000_0000 == 0
  {
    ShiftedIds(0, x / 0x1_0000_0000 - y / 0x1_0000_0000);
    assert x - y == 0x1_0000_0000 * (x / 0x1_0000_0000 - y / 0x1_0000_0000);
  }

  lemma IdsDiffer(x: nat, y: nat)
    requires (x - y) % 0x1_0000_0000 == 0
    ensures x % 0x1_0000_0000 == y % 0x1_0000_0000 && (x - y) % 2 == 0
  {
    var f := Multiple(x - y);
    ShiftedIds(y, f);
    Even(0x8000_0000 * f);
  }

  lemma Multiple(d: int) returns (f: int)
    requires d % 0x1_0000_0000 == 0
    ensures d == 0x1_0000_0000 * f
  {
    f := d / 0x1_0000_0000;
  }

  lemma Even(z: int)
    ensures (2 * z) % 2 == 0
  {
  }

  lemma ShiftedIds(y: int, f: int)
    ensures (y + 0x1_0000_0000 * f) % 0x1_0000_0000 == y % 0x1_0000_0000
  {
  }

  lemma SameSlot(x: nat, y: nat)
    ensures x % SLOTS == y % SLOTS <==> (x - y) % SLOTS == 0
    ensures (x - y) % SLOTS == 0 ==> (x - y) % 2 == 0
  {
    if x % 32 == y % 32 {
      SlotsAgree(x, y);
    }
    if (x - y) % 32 == 0 {
      SlotsDiffer(x, y);
    }
  }

  lemma SlotsAgree(x: nat, y: nat)
    requires x % 32 == y % 32
    ensures (x - y) % 32 == 0
  {
    Shifted32(0, x / 32 - y / 32);
    assert x - y == 32 * (x / 32 - y / 32);
  }

  lemma SlotsDiffer(x: nat, y: nat)
    requires (x - y) % 32 == 0
    ensures x % 32 == y % 32 && (x - y) % 2 == 0
  {
    var f := (x - y) / 32;
    assert x == y + 32 * f;
    Shifted32(y, f);
    assert x - y == 2 * (16 * f);
  }

  lemma Shifted32(y: int, f: int)
    ensures (y + 32 * f) % 32 == y % 32
  {
  }

  lemma SlotOfId(x: nat)
    ensures x % IDS % SLOTS == x % SLOTS
  {
  }

  lemma Halves(d: int)
    ensures (2 * d) % IDS == 0 <==> d % (IDS / 2) == 0
    ensures (2 * d) % SLOTS == 0 <==> d % (SLOTS / 2) == 0
  {
    HalfIds(d);
    HalfSlots(d);
  }

  lemma HalfIds(d: int)
    ensures (2 * d) % 0x1_0000_0000 == 0 <==> d % 0x8000_0000 == 0
  {
    var k := d / 0x8000_0000;
    var r := d % 0x8000_0000;
    assert 2 * d == 0x1_0000_0000 * k + 2 * r && 0 <= 2 * r < 0x1_0000_0000;
    assert (2 * d) % 0x1_0000_0000 == 2 * r;
  }

  lemma HalfSlots(d: int)
    ensures (2 * d) % 32 == 0 <==> d % 16 == 0
  {
  }

  /** The machine: `nodes` processes of `size` PEs, and the PE list of each
      requested reduction. */
  datatype World = World(nodes: nat, size: nat, lists: nat -> seq<nat>)

  ghost predicate WorldOk(w: World) {
    w.nodes > 0 && w.size > 0 && forall n: nat :: TreeOk(Listed(w.lists(n)))
  }

  ghost function T(w: World, key: Key): (t: Tree)
    requires WorldOk(w)
    ensures TreeOk(t)
  {
    if key.request then Listed(w.lists(key.n)) else Span(w.nodes, w.size)
  }

  // ----- the records, the messages and the steps

  datatype Tag = Tag(pe: int, key: Key)

  datatype Cell = Cell(pe: int, slot: nat)

  /** CmiReduction */
  datatype Record = Record(id: nat, kids: int, parent: int, local: bool,
                           mine: multiset<Tag>, remotes: seq<multiset<Tag>>)

  datatype Msg = Msg(dest: int, id: nat, body: multiset<Tag>)

  datatype Result = Result(pe: int, id: nat, body: multiset<Tag>)

  /** `running` are the root records whose handler has been called and has not
      returned: CmiSendReduce clears the record only after the handler. */
  datatype State = State(table: map<Cell, Record>, net: multiset<Msg>, delivered: seq<Result>,
                         started: set<(int, Key)>, running: set<Cell>, stopped: bool)

  ghost function Sum(bodies: seq<multiset<Tag>>): multiset<Tag> {
    if bodies == [] then multiset{} else Sum(bodies[..|bodies| - 1]) + bodies[|bodies| - 1]
  }

  /** CmiCheckReductionSlot: the slot is held by a reduction with another id. */
  ghost predicate Clash(s: State, cell: Cell, id: nat) {
    cell in s.table && s.table[cell].id != id
  }

  /** CmiGetCreateReduction, once the slot has been checked. */
  ghost function Opened(w: World, s: State, cell: Cell, id: nat): Record
    requires WorldOk(w)
  {
    if cell in s.table then s.table[cell]
    else if cell.pe < 0 then Record(id, 0, -1, false, multiset{}, [])
    else Record(id, SpanKids(w.nodes, w.size, cell.pe), SpanUp(w.size, cell.pe), false, multiset{}, [])
  }

  /** CmiSendReduce, up to the call of the root handler */
  ghost function SendUp(s: State, cell: Cell): State
    requires cell in s.table
  {
    var r := s.table[cell];
    if !r.local || r.kids != |r.remotes| then s
    else
      var merged := r.mine + Sum(r.remotes);
      if r.parent != -1 then s.(table := s.table - {cell}, net := s.net + multiset{Msg(r.parent, r.id, merged)})
      else s.(delivered := s.delivered + [Result(cell.pe, r.id, merged)], running := s.running + {cell})
  }

  /** The position of a PE in the tree of a reduction. */
  ghost predicate Member(t: Tree, pe: int) {
    exists i: nat :: i < Size(t) && Pe(t, i) == pe
  }

  ghost function Pos(t: Tree, pe: int): (i: nat)
    requires Member(t, pe)
    ensures i < Size(t) && Pe(t, i) == pe
  {
    var i: nat :| i < Size(t) && Pe(t, i) == pe; i
  }

  ghost function ParentPe(t: Tree, i: nat): int
    requires TreeOk(t) && i < Size(t)
  {
    UpBelow(t, i);
    if i == 0 then -1 else Pe(t, Up(t, i))
  }

  /** Return is a root handler's return. A handler may call CmiReduce itself, so any
      other action can come between its call and its return. */
  datatype Action = Contribute(pe: int, key: Key) | Arrive(m: Msg) | Return(cell: Cell)

  /** The root handler has been called for this reduction. */
  ghost predicate Complete(s: State, key: Key) {
    exists d :: d in s.delivered && exists t :: t in d.body && t.key == key
  }

  /** The root handler of this reduction is running. */
  ghost predicate Running(s: State, key: Key) {
    exists cell :: cell in s.running && cell in s.table && Tag(cell.pe, key) in s.table[cell].mine
  }

  /** Some PE has called the reduction, and its root handler has not returned. */
  ghost predicate Open(s: State, key: Key) {
    (exists p :: (p, key) in s.started) && (!Complete(s, key) || Running(s, key))
  }

  ghost predicate Enabled(w: World, s: State, a: Action) {
    && WorldOk(w) && !s.stopped
    && match a
       case Contribute(pe, key) =>
         (pe, key) !in s.started && Member(T(w, key), pe)
       case Arrive(m) => m in s.net
       case Return(cell) => cell in s.running
  }

  ghost function Apply(w: World, s: State, a: Action): State
    requires Enabled(w, s, a)
  {
    match a
    case Contribute(pe, key) =>
      var cell, t := Cell(pe, Slot(Id(key))), T(w, key);
      if Clash(s, cell, Id(key)) then s.(stopped := true)
      else
        var r := Opened(w, s, cell, Id(key)).(local := true, mine := multiset{Tag(pe, key)});
        var i := Pos(t, pe);
        var r1 := if key.request then r.(kids := Kids(t, i), parent := ParentPe(t, i)) else r;
        SendUp(s.(table := s.table[cell := r1], started := s.started + {(pe, key)}), cell)
    case Arrive(m) =>
      var cell := Cell(m.dest, Slot(m.id));
      var s1 := s.(net := s.net - multiset{m});
      if Clash(s, cell, m.id) then s1.(stopped := true)
      else
        var r := Opened(w, s, cell, m.id);
        SendUp(s1.(table := s.table[cell := r.(remotes := r.remotes + [m.body])]), cell)
    case Return(cell) => s.(table := s.table - {cell}, running := s.running - {cell})
  }

  const FRESH := State(map[], multiset{}, [], {}, {}, false)

  /** A PE does not start a reduction while one with the same 32-bit id is open: the
      condition under which ids name reductions. */
  ghost predicate IdFree(s: State, a: Action) {
    a.Contribute? ==> forall k :: Open(s, k) && Id(k) == Id(a.key) ==> k == a.key
  }

  /** A PE starts a reduction only while every open one of its counter is fewer than
      `bound` calls away. */
  ghost predicate Near(s: State, a: Action, bound: nat) {
    a.Contribute? ==>
      forall k :: Open(s, k) && k.request == a.key.request ==> k.n < a.key.n + bound && a.key.n < k.n + bound
  }

  // ----- what a message should hold

  ghost function Tags(w: World, key: Key, qs: set<nat>): set<Tag>
    requires WorldOk(w) && forall q :: q in qs ==> q < Size(T(w, key))
  {
    set q | q in qs :: Tag(Pe(T(w, key), q), key)
  }

  /** One contribution from every PE of the subtree at position `i`. */
  ghost function Body(w: World, key: Key, i: nat): multiset<Tag>
    requires WorldOk(w)
  {
    multiset(Tags(w, key, Subtree(T(w, key), i)))
  }

  ghost function Bodies(w: World, key: Key, cs: seq<nat>): seq<multiset<Tag>>
    requires WorldOk(w)
  {
    seq(|cs|, j requires 0 <= j < |cs| => Body(w, key, cs[j]))
  }

  /** Every PE of the reduction, once. */
  ghost function Everyone(w: World, key: Key): multiset<Tag>
    requires WorldOk(w)
  {
    multiset(set i: nat | i < Size(T(w, key)) :: Tag(Pe(T(w, key), i), key))
  }

  lemma PeInjective(t: Tree, i: nat, j: nat)
    requires TreeOk(t) && i < Size(t) && j < Size(t) && Pe(t, i) == Pe(t, j)
    ensures i == j
  {
    if t.Listed? {
      assert !(i < j) && !(j < i);
    }
  }

  lemma PosIs(t: Tree, i: nat)
    requires TreeOk(t) && i < Size(t)
    ensures Member(t, Pe(t, i)) && Pos(t, Pe(t, i)) == i
  {
    PeInjective(t, i, Pos(t, Pe(t, i)));
  }

  lemma TagsDisjoint(w: World, key: Key, a: set<nat>, b: set<nat>)
    requires WorldOk(w) && a !! b && forall q :: q in a + b ==> q < Size(T(w, key))
    ensures multiset(Tags(w, key, a + b)) == multiset(Tags(w, key, a)) + multiset(Tags(w, key, b))
  {
    assert forall q :: q in a || q in b ==> q in a + b;
    hide T;
    var ta, tb, tab := Tags(w, key, a), Tags(w, key, b), Tags(w, key, a + b);
    assert tab == ta + tb;
    forall x | x in ta && x in tb ensures false {
      var i :| i in a && x == Tag(Pe(T(w, key), i), key);
      var j :| j in b && x == Tag(Pe(T(w, key), j), key);
      PeInjective(T(w, key), i, j);
    }
    assert ta !! tb;
  }

  ghost function UnderAny(t: Tree, cs: seq<nat>): (qs: set<nat>)
    requires TreeOk(t)
    ensures forall q :: q in qs ==> q < Size(t)
    ensures forall q :: q in qs <==> exists c :: c in cs && q in Subtree(t, c)
  {
    if cs == [] then {}
    else
      var n := |cs| - 1;
      assert cs == cs[..n] + [cs[n]];
      UnderAny(t, cs[..n]) + Subtree(t, cs[n])
  }

  lemma LastApart(t: Tree, i: nat, cs: seq<nat>)
    requires TreeOk(t) && cs != [] && Distinct(cs) && forall c :: c in cs ==> c in KidSet(t, i)
    ensures UnderAny(t, cs[..|cs| - 1]) !! Subtree(t, cs[|cs| - 1])
  {
    hide Under, KidSet, TreeOk;
    var n := |cs| - 1;
    var a, b := UnderAny(t, cs[..n]), Subtree(t, cs[n]);
    assert cs[n] in cs && cs[n] !in cs[..n] && forall c :: c in cs[..n] ==> c in cs;
    forall q | q in a && q in b ensures false {
      var c :| c in cs[..n] && q in Subtree(t, c);
      UnderOne(t, i, c, cs[n], q);
    }
  }

  lemma SumLast(w: World, key: Key, cs: seq<nat>)
    requires WorldOk(w) && cs != []
    ensures Sum(Bodies(w, key, cs)) == Sum(Bodies(w, key, cs[..|cs| - 1])) + Body(w, key, cs[|cs| - 1])
    ensures UnderAny(T(w, key), cs) == UnderAny(T(w, key), cs[..|cs| - 1]) + Subtree(T(w, key), cs[|cs| - 1])
  {
    hide Body, Subtree, T;
    assert Bodies(w, key, cs)[..|cs| - 1] == Bodies(w, key, cs[..|cs| - 1]);
  }

  lemma InTree(t: Tree, i: nat, q: nat)
    requires TreeOk(t) && q in Subtree(t, i)
    ensures q < Size(t)
  {
  }

  /** Merging the messages of some children gives one contribution from each PE
      under them, whatever the order. */
  lemma {:induction false} SumBodies(w: World, key: Key, i: nat, cs: seq<nat>)
    requires WorldOk(w) && Distinct(cs) && forall c :: c in cs ==> c in KidSet(T(w, key), i)
    ensures Sum(Bodies(w, key, cs)) == multiset(Tags(w, key, UnderAny(T(w, key), cs)))
    decreases |cs|
  {
    var t := T(w, key);
    if cs != [] {
      hide T, Under, KidSet, TreeOk, Pe, Size, Sum, Bodies, UnderAny, Subtree, Tags;
      var n := |cs| - 1;
      assert forall c :: c in cs[..n] ==> c in cs;
      SumBodies(w, key, i, cs[..n]);
      SumLast(w, key, cs);
      LastApart(t, i, cs);
      forall q | q in Subtree(t, cs[n]) ensures q < Size(t) {
        InTree(t, cs[n], q);
      }
      TagsDisjoint(w, key, UnderAny(t, cs[..n]), Subtree(t, cs[n]));
    } else {
      assert Tags(w, key, UnderAny(t, cs)) == {};
    }
  }

  /** A PE's own contribution and those of all its children make up its subtree. */
  lemma MergeAll(w: World, key: Key, i: nat, cs: seq<nat>)
    requires WorldOk(w) && i < Size(T(w, key)) && Distinct(cs) && |cs| == Kids(T(w, key), i)
    requires forall c :: c in cs ==> c in KidSet(T(w, key), i)
    ensures multiset{Tag(Pe(T(w, key), i), key)} + Sum(Bodies(w, key, cs)) == Body(w, key, i)
  {
    var t := T(w, key);
    hide T, Under, KidSet, TreeOk;
    SumBodies(w, key, i, cs);
    AllKids(t, i, cs);
    SubtreeIs(t, i, cs);
    var rest := UnderAny(t, cs);
    TagsDisjoint(w, key, {i}, rest);
    assert Tags(w, key, {i}) == {Tag(Pe(t, i), key)};
  }

  lemma AllKids(t: Tree, i: nat, cs: seq<nat>)
    requires TreeOk(t) && i < Size(t) && Distinct(cs) && |cs| == Kids(t, i) && forall c :: c in cs ==> c in KidSet(t, i)
    ensures forall c :: c in KidSet(t, i) ==> c in cs
  {
    hide KidSet, Kids;
    KidCount(t, i);
    var s := set c | c in cs;
    SetOfDistinct(cs, s);
    SubsetSize(s, KidSet(t, i));
  }

  lemma SubtreeIs(t: Tree, i: nat, cs: seq<nat>)
    requires TreeOk(t) && i < Size(t) && forall c :: c in cs <==> c in KidSet(t, i)
    ensures i !in UnderAny(t, cs) && Subtree(t, i) == {i} + UnderAny(t, cs)
  {
    hide KidSet, TreeOk, UnderAny;
    forall q | q in UnderAny(t, cs) ensures q > i && q in Subtree(t, i) {
      var c :| c in cs && q in Subtree(t, c);
      UnderUp(t, i, c, q);
    }
    forall q | q in Subtree(t, i) && q != i ensures q in UnderAny(t, cs) {
      var c := UnderVia(t, i, q);
    }
  }
}
