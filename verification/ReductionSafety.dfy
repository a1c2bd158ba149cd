/** Why every reduction is exact: the invariant of the reduction machine, kept by
    every step, and what it means for whole runs. */
module ReductionSafety {
  import opened Collections
  import opened SpanTree
  import opened Reduction

  /** A position in the tree of a reduction. */
  datatype Node = Node(key: Key, i: nat)

  /** What has happened so far: the positions that have sent their merged message,
      those whose message is still under way, the children each position has heard
      from, the reduction that owns each record, and the ones completed. */
  datatype Ghost = Ghost(fin: set<Node>, flying: set<Node>, got: map<Node, seq<nat>>,
                         owner: map<Cell, Key>, done: seq<Key>)
  {
    function Got(y: Node): seq<nat> { if y in got then got[y] else [] }
  }

  const NOTHING := Ghost({}, {}, map[], map[], [])

  ghost predicate In(w: World, x: Node)
    requires WorldOk(w)
  {
    x.i < Size(T(w, x.key))
  }

  ghost function PeOf(w: World, x: Node): int
    requires WorldOk(w) && In(w, x)
  {
    Pe(T(w, x.key), x.i)
  }

  ghost function CellOf(w: World, x: Node): Cell
    requires WorldOk(w) && In(w, x)
  {
    Cell(PeOf(w, x), Slot(Id(x.key)))
  }

  ghost function Parent(w: World, x: Node): (y: Node)
    requires WorldOk(w) && In(w, x) && x.i > 0
    ensures In(w, y) && y.i < x.i && y.key == x.key && x.i in KidSet(T(w, x.key), y.i)
  {
    UpBelow(T(w, x.key), x.i);
    Node(x.key, Up(T(w, x.key), x.i))
  }

  ghost function MsgOf(w: World, x: Node): Msg
    requires WorldOk(w) && In(w, x)
  {
    Msg(ParentPe(T(w, x.key), x.i), Id(x.key), Body(w, x.key, x.i))
  }

  // ----- the invariant

  ghost predicate FinOk(w: World, s: State, a: Ghost, x: Node)
    requires WorldOk(w)
  {
    x in a.fin ==>
      && In(w, x) && (PeOf(w, x), x.key) in s.started
      && (forall c :: c in KidSet(T(w, x.key), x.i) ==> Node(x.key, c) in a.fin)
  }

  ghost predicate FlyOk(w: World, a: Ghost, x: Node)
    requires WorldOk(w)
  {
    x in a.flying ==>
      x in a.fin && In(w, x) && x.i > 0 && Parent(w, x) !in a.fin && x.i !in a.Got(Parent(w, x))
  }

  ghost predicate GotOk(w: World, a: Ghost, y: Node)
    requires WorldOk(w)
  {
    && Distinct(a.Got(y)) && (a.Got(y) != [] ==> In(w, y) && y !in a.fin)
    && (forall c :: c in a.Got(y) ==> c in KidSet(T(w, y.key), y.i) && Node(y.key, c) in a.fin)
  }

  ghost predicate Accounted(w: World, a: Ghost, x: Node)
    requires WorldOk(w)
  {
    x in a.fin && In(w, x) && x.i > 0 && Parent(w, x) !in a.fin ==> x in a.flying || x.i in a.Got(Parent(w, x))
  }

  ghost predicate TreeInv(w: World, s: State, a: Ghost)
    requires WorldOk(w)
  {
    && (forall x :: FinOk(w, s, a, x)) && (forall x :: FlyOk(w, a, x))
    && (forall y :: GotOk(w, a, y)) && (forall x :: Accounted(w, a, x))
  }

  ghost function Msgs(w: World, flying: set<Node>): set<Msg>
    requires WorldOk(w)
  {
    set x | x in flying && In(w, x) :: MsgOf(w, x)
  }

  ghost predicate NetInv(w: World, s: State, a: Ghost)
    requires WorldOk(w)
  {
    s.net == multiset(Msgs(w, a.flying))
  }

  /** The record `r` is that of position `y`. */
  ghost predicate RecOk(w: World, s: State, a: Ghost, y: Node, r: Record)
    requires WorldOk(w)
  {
    && In(w, y) && y !in a.fin
    && r.id == Id(y.key) && (r.local <==> (PeOf(w, y), y.key) in s.started)
    && (r.local || a.Got(y) != [])
    && r.remotes == Bodies(w, y.key, a.Got(y))
    && (r.local || !y.key.request ==> r.kids == Kids(T(w, y.key), y.i) && r.parent == ParentPe(T(w, y.key), y.i))
    && (r.local ==> r.mine == multiset{Tag(PeOf(w, y), y.key)})
  }

  /** The record `r` is that of the root `y`, whose handler is running. */
  ghost predicate RootOk(w: World, a: Ghost, y: Node, r: Record)
    requires WorldOk(w)
  {
    && In(w, y) && y in a.fin && y.i == 0 && r.id == Id(y.key)
    && r.mine == multiset{Tag(PeOf(w, y), y.key)} && |r.remotes| == Kids(T(w, y.key), 0)
  }

  /** The position a record belongs to. */
  ghost function OwnerOf(w: World, key: Key, cell: Cell): (y: Node)
    requires WorldOk(w) && Member(T(w, key), cell.pe)
    ensures In(w, y) && PeOf(w, y) == cell.pe && y.key == key
  {
    Node(key, Pos(T(w, key), cell.pe))
  }

  ghost predicate CellInv(w: World, s: State, a: Ghost, cell: Cell)
    requires WorldOk(w)
  {
    && (cell in s.table <==> cell in a.owner) && (cell in s.running ==> cell in s.table)
    && (cell in s.table ==>
          && cell.slot == Slot(Id(a.owner[cell])) && Member(T(w, a.owner[cell]), cell.pe)
          && var y := OwnerOf(w, a.owner[cell], cell);
             if cell in s.running then RootOk(w, a, y, s.table[cell]) else RecOk(w, s, a, y, s.table[cell]))
  }

  /** A position with something to remember has its record. */
  ghost predicate OwnedOk(w: World, s: State, a: Ghost, y: Node)
    requires WorldOk(w)
  {
    In(w, y) && y !in a.fin && ((PeOf(w, y), y.key) in s.started || a.Got(y) != []) ==>
      CellOf(w, y) in a.owner && a.owner[CellOf(w, y)] == y.key
  }

  ghost predicate TableInv(w: World, s: State, a: Ghost)
    requires WorldOk(w)
  {
    (forall cell :: CellInv(w, s, a, cell)) && (forall y :: OwnedOk(w, s, a, y))
  }

  ghost predicate Held(s: State, a: Ghost, key: Key) {
    exists cell :: cell in s.running && cell in a.owner && a.owner[cell] == key
  }

  ghost predicate Live(s: State, a: Ghost, key: Key) {
    (exists p :: (p, key) in s.started) && (Node(key, 0) !in a.fin || Held(s, a, key))
  }

  /** No reduction is open that was not. */
  ghost predicate NoneNew(s: State, a: Ghost, s': State, a': Ghost) {
    forall k :: Live(s', a', k) ==> Live(s, a, k)
  }

  ghost predicate IdInv(w: World, s: State, a: Ghost)
    requires WorldOk(w)
  {
    && (forall j, k :: Live(s, a, j) && Live(s, a, k) && Id(j) == Id(k) ==> j == k)
    && (forall p, k :: (p, k) in s.started ==> Member(T(w, k), p))
  }

  ghost predicate DoneInv(w: World, s: State, a: Ghost)
    requires WorldOk(w)
  {
    && |s.delivered| == |a.done|
    && (forall j, k :: 0 <= j < k < |a.done| ==> a.done[j] != a.done[k])
    && (forall j :: 0 <= j < |a.done| ==>
          In(w, Node(a.done[j], 0)) && Node(a.done[j], 0) in a.fin
          && s.delivered[j] == Result(Pe(T(w, a.done[j]), 0), Id(a.done[j]), Body(w, a.done[j], 0)))
    && (forall key :: Node(key, 0) in a.fin ==> key in a.done)
  }

  ghost predicate Inv0(w: World, s: State, a: Ghost) {
    && WorldOk(w) && TreeInv(w, s, a) && NetInv(w, s, a) && TableInv(w, s, a) && IdInv(w, s, a) && DoneInv(w, s, a)
  }

  /** A record waits for its own contribution or for a child. */
  ghost predicate Waiting(s: State, cell: Cell) {
    cell in s.table && cell !in s.running ==> !s.table[cell].local || s.table[cell].kids != |s.table[cell].remotes|
  }

  ghost predicate Inv(w: World, s: State, a: Ghost) {
    Inv0(w, s, a) && forall cell :: Waiting(s, cell)
  }

  // ----- consequences

  lemma {:induction false} AllFinished(w: World, s: State, a: Ghost, key: Key, i: nat)
    requires WorldOk(w) && TreeInv(w, s, a) && Node(key, 0) in a.fin && i < Size(T(w, key))
    ensures Node(key, i) in a.fin
    decreases i
  {
    if i > 0 {
      var y := Parent(w, Node(key, i));
      AllFinished(w, s, a, key, y.i);
      assert FinOk(w, s, a, y);
    }
  }

  /** A position that has not sent belongs to a reduction that is not complete. */
  lemma StillLive(w: World, s: State, a: Ghost, y: Node)
    requires WorldOk(w) && TreeInv(w, s, a) && In(w, y) && y !in a.fin
    requires (PeOf(w, y), y.key) in s.started || a.Got(y) != []
    ensures Live(s, a, y.key)
  {
    if Node(y.key, 0) in a.fin {
      AllFinished(w, s, a, y.key, y.i);
    }
    if a.Got(y) != [] {
      assert GotOk(w, a, y);
      var c := a.Got(y)[0];
      assert c in a.Got(y);
      assert FinOk(w, s, a, Node(y.key, c));
    }
  }

  /** The record a message or a contribution finds is that of its own reduction. */
  lemma SameOwner(w: World, s: State, a: Ghost, y: Node)
    requires Inv0(w, s, a) && In(w, y) && y !in a.fin && Live(s, a, y.key)
    requires CellOf(w, y) in s.table && s.table[CellOf(w, y)].id == Id(y.key)
    ensures CellOf(w, y) in a.owner && a.owner[CellOf(w, y)] == y.key
    ensures CellOf(w, y) !in s.running && RecOk(w, s, a, y, s.table[CellOf(w, y)])
  {
    hide NetInv, DoneInv, T, Live;
    var cell := CellOf(w, y);
    assert CellInv(w, s, a, cell);
    OwnerLive(w, s, a, cell);
    OwnerIs(w, y, cell);
  }

  lemma OwnerIs(w: World, y: Node, cell: Cell)
    requires WorldOk(w) && In(w, y) && PeOf(w, y) == cell.pe
    ensures Member(T(w, y.key), cell.pe) && OwnerOf(w, y.key, cell) == y
  {
    hide T;
    PosIs(T(w, y.key), y.i);
  }

  /** A record belongs to a reduction that is not over. */
  lemma OwnerLive(w: World, s: State, a: Ghost, cell: Cell)
    requires WorldOk(w) && TreeInv(w, s, a) && CellInv(w, s, a, cell) && cell in s.table
    ensures Live(s, a, a.owner[cell]) && Id(a.owner[cell]) == s.table[cell].id
  {
    hide KidSet, T, Body;
    var y := OwnerOf(w, a.owner[cell], cell);
    if cell in s.running {
      assert FinOk(w, s, a, y);
    } else {
      StillLive(w, s, a, y);
    }
  }

  /** A record that is not that of a running handler stays its owner's. */
  lemma NotRunning(w: World, s: State, a: Ghost, y: Node)
    requires WorldOk(w) && In(w, y) && y !in a.fin && CellInv(w, s, a, CellOf(w, y))
    requires CellOf(w, y) in s.table ==> CellOf(w, y) in a.owner && a.owner[CellOf(w, y)] == y.key
    ensures CellOf(w, y) !in s.running
  {
    hide T, KidSet, Body;
    OwnerIs(w, y, CellOf(w, y));
  }

  lemma OwnTag(w: World, x: Node)
    requires WorldOk(w) && In(w, x)
    ensures Tag(PeOf(w, x), x.key) in Body(w, x.key, x.i)
  {
    assert x.i in Subtree(T(w, x.key), x.i);
    assert Tag(PeOf(w, x), x.key) in Tags(w, x.key, Subtree(T(w, x.key), x.i));
  }

  lemma TagFrom(w: World, x: Node, y: Node)
    requires WorldOk(w) && In(w, x) && In(w, y) && Tag(PeOf(w, x), x.key) in Body(w, y.key, y.i)
    ensures x.key == y.key && x.i >= y.i
  {
    var t := T(w, y.key);
    var q :| q in Subtree(t, y.i) && Tag(Pe(t, q), y.key) == Tag(PeOf(w, x), x.key);
    PeInjective(t, q, x.i);
  }

  /** Different positions send different messages. */
  lemma MsgInjective(w: World, x: Node, y: Node)
    requires WorldOk(w) && In(w, x) && In(w, y) && MsgOf(w, x) == MsgOf(w, y)
    ensures x == y
  {
    hide T, Body;
    OwnTag(w, x);
    OwnTag(w, y);
    TagFrom(w, x, y);
    TagFrom(w, y, x);
  }

  lemma MsgsAdd(w: World, flying: set<Node>, y: Node)
    requires WorldOk(w) && In(w, y) && y !in flying
    ensures multiset(Msgs(w, flying + {y})) == multiset(Msgs(w, flying)) + multiset{MsgOf(w, y)}
  {
    hide T, MsgOf;
    if MsgOf(w, y) in Msgs(w, flying) {
      var x :| x in flying && In(w, x) && MsgOf(w, x) == MsgOf(w, y);
      MsgInjective(w, x, y);
    }
    assert Msgs(w, flying + {y}) == Msgs(w, flying) + {MsgOf(w, y)};
  }

  lemma MsgsRemove(w: World, flying: set<Node>, x: Node)
    requires WorldOk(w) && In(w, x) && x in flying
    ensures multiset(Msgs(w, flying - {x})) == multiset(Msgs(w, flying)) - multiset{MsgOf(w, x)}
  {
    hide T, MsgOf;
    MsgsAdd(w, flying - {x}, x);
    assert flying - {x} + {x} == flying;
  }

  // ----- a position sends its merged message

  ghost function Finish(w: World, a: Ghost, y: Node): Ghost
    requires WorldOk(w) && In(w, y)
  {
    a.(fin := a.fin + {y}, got := a.got - {y}, owner := if y.i > 0 then a.owner - {CellOf(w, y)} else a.owner,
       flying := if y.i > 0 then a.flying + {y} else a.flying,
       done := if y.i == 0 then a.done + [y.key] else a.done)
  }

  /** Everything about `y` is there: it may send. */
  ghost predicate Full(w: World, s: State, a: Ghost, y: Node)
    requires WorldOk(w)
  {
    && In(w, y) && y !in a.fin && (PeOf(w, y), y.key) in s.started
    && (forall c :: c in KidSet(T(w, y.key), y.i) ==> c in a.Got(y))
  }

  lemma FinishTree(w: World, s: State, s': State, a: Ghost, y: Node)
    requires WorldOk(w) && TreeInv(w, s, a) && Full(w, s, a, y) && s'.started == s.started
    ensures TreeInv(w, s', Finish(w, a, y))
  {
    hide T, KidSet;
    var a' := Finish(w, a, y);
    assert GotOk(w, a, y);
    if y.i > 0 {
      assert FinOk(w, s, a, Parent(w, y)) && GotOk(w, a, Parent(w, y));
    }
    forall x ensures FinOk(w, s', a', x) && FlyOk(w, a', x) && GotOk(w, a', x) && Accounted(w, a', x) {
      assert FinOk(w, s, a, x) && FlyOk(w, a, x) && GotOk(w, a, x) && Accounted(w, a, x);
    }
  }

  lemma CellsApart(w: World, s: State, a: Ghost, x: Node, y: Node)
    requires WorldOk(w) && TableInv(w, s, a) && In(w, x) && In(w, y) && CellOf(w, x) == CellOf(w, y)
    requires OwnedOk(w, s, a, x) && CellOf(w, x) in a.owner
    requires a.owner[CellOf(w, x)] == x.key && a.owner[CellOf(w, y)] == y.key
    ensures x == y
  {
    PeInjective(T(w, x.key), x.i, y.i);
  }

  /** What the sending leaves in the table: nothing, or the record of a root whose
      handler runs. */
  ghost predicate SentFrom(w: World, s: State, s': State, y: Node)
    requires WorldOk(w) && In(w, y)
  {
    if y.i > 0 then s'.table == s.table - {CellOf(w, y)} && s'.running == s.running
    else s'.table == s.table && s'.running == s.running + {CellOf(w, y)}
  }

  lemma FinishTable(w: World, s: State, s': State, a: Ghost, y: Node)
    requires WorldOk(w) && TableInv(w, s, a) && Full(w, s, a, y) && s'.started == s.started && SentFrom(w, s, s', y)
    requires CellOf(w, y) in s.table && (y.i == 0 ==> RootOk(w, Finish(w, a, y), y, s.table[CellOf(w, y)]))
    ensures TableInv(w, s', Finish(w, a, y))
  {
    hide T, KidSet, Kids;
    var a', here := Finish(w, a, y), CellOf(w, y);
    assert OwnedOk(w, s, a, y);
    OwnerIs(w, y, here);
    forall cell ensures CellInv(w, s', a', cell) {
      assert CellInv(w, s, a, cell);
      if cell in s'.table && cell != here {
        assert CellOf(w, OwnerOf(w, a.owner[cell], cell)) == cell;
      }
    }
    forall x ensures OwnedOk(w, s', a', x) {
      assert OwnedOk(w, s, a, x);
      if In(w, x) && x !in a'.fin && ((PeOf(w, x), x.key) in s.started || a'.Got(x) != []) && CellOf(w, x) == here {
        CellsApart(w, s, a, x, y);
      }
    }
  }

  lemma FinishIds(w: World, s: State, s': State, a: Ghost, y: Node)
    requires WorldOk(w) && IdInv(w, s, a) && Full(w, s, a, y) && s'.started == s.started && SentFrom(w, s, s', y)
    requires OwnedOk(w, s, a, y)
    ensures IdInv(w, s', Finish(w, a, y)) && NoneNew(s, a, s', Finish(w, a, y))
  {
    hide T, CellOf, Id, KidSet;
    var a' := Finish(w, a, y);
    forall j | Live(s', a', j) ensures Live(s, a, j) {
    }
  }

  /** What CmiSendReduce does for a position that has everything. */
  lemma SendIs(w: World, s: State, a: Ghost, y: Node, r: Record)
    requires WorldOk(w) && TreeInv(w, s, a) && RecOk(w, s, a, y, r) && r.local && r.kids == |r.remotes|
    requires CellOf(w, y) in s.table && s.table[CellOf(w, y)] == r
    ensures var s' := SendUp(s, CellOf(w, y));
            && s'.started == s.started && SentFrom(w, s, s', y)
            && s'.net == s.net + (if y.i > 0 then multiset{MsgOf(w, y)} else multiset{})
            && s'.delivered ==
               s.delivered + (if y.i > 0 then [] else [Result(PeOf(w, y), Id(y.key), Body(w, y.key, 0))])
  {
    Merged(w, s, a, y, r);
    UpBelow(T(w, y.key), y.i);
    hide TreeInv, RecOk, T, Body, Sum, Id, Slot;
  }

  /** The position sends up: its message holds its whole subtree. */
  lemma FinishUp(w: World, s: State, a: Ghost, y: Node, r: Record)
    requires Inv0(w, s, a) && Full(w, s, a, y) && RecOk(w, s, a, y, r) && r.local && r.kids == |r.remotes|
    requires CellOf(w, y) in s.table && s.table[CellOf(w, y)] == r
    ensures var s', a' := SendUp(s, CellOf(w, y)), Finish(w, a, y); Inv0(w, s', a') && NoneNew(s, a, s', a')
  {
    assert OwnedOk(w, s, a, y);
    hide TreeInv, TableInv, IdInv, DoneInv, NetInv, RecOk, RootOk, OwnedOk, SentFrom, NoneNew;
    hide T, Body, CellOf, MsgOf, SendUp, Finish;
    var s' := SendUp(s, CellOf(w, y));
    SendIs(w, s, a, y, r);
    BecomesRoot(w, s, a, y, r);
    FinishTree(w, s, s', a, y);
    FinishTable(w, s, s', a, y);
    FinishIds(w, s, s', a, y);
    FinishNet(w, s, s', a, y);
    FinishDone(w, s, s', a, y);
  }

  lemma FinishNet(w: World, s: State, s': State, a: Ghost, y: Node)
    requires WorldOk(w) && TreeInv(w, s, a) && NetInv(w, s, a) && Full(w, s, a, y)
    requires s'.net == s.net + (if y.i > 0 then multiset{MsgOf(w, y)} else multiset{})
    ensures NetInv(w, s', Finish(w, a, y))
  {
    hide TreeInv, KidSet, T, MsgOf, CellOf;
    NotFlying(w, s, a, y);
    if y.i > 0 {
      MsgsAdd(w, a.flying, y);
    }
  }

  lemma FinishDone(w: World, s: State, s': State, a: Ghost, y: Node)
    requires WorldOk(w) && DoneInv(w, s, a) && Full(w, s, a, y)
    requires s'.delivered == s.delivered + (if y.i > 0 then [] else [Result(PeOf(w, y), Id(y.key), Body(w, y.key, 0))])
    ensures DoneInv(w, s', Finish(w, a, y))
  {
    hide DoneInv, T, Body, CellOf, KidSet;
    if y.i > 0 {
      DoneSame(w, s, s', a, Finish(w, a, y), y);
    } else {
      DoneMore(w, s, s', a, Finish(w, a, y), y);
    }
  }

  lemma BecomesRoot(w: World, s: State, a: Ghost, y: Node, r: Record)
    requires WorldOk(w) && RecOk(w, s, a, y, r) && r.local && r.kids == |r.remotes|
    ensures y.i == 0 ==> RootOk(w, Finish(w, a, y), y, r)
  {
    hide T, Kids, Bodies;
  }

  lemma NotFlying(w: World, s: State, a: Ghost, y: Node)
    requires WorldOk(w) && TreeInv(w, s, a) && Full(w, s, a, y)
    ensures y !in a.flying && y !in a.fin
  {
    assert FlyOk(w, a, y);
  }

  lemma DoneSame(w: World, s: State, s': State, a: Ghost, a': Ghost, y: Node)
    requires WorldOk(w) && DoneInv(w, s, a) && y.i > 0
    requires s'.delivered == s.delivered && a'.done == a.done && a'.fin == a.fin + {y}
    ensures DoneInv(w, s', a')
  {
  }

  lemma DoneMore(w: World, s: State, s': State, a: Ghost, a': Ghost, y: Node)
    requires WorldOk(w) && DoneInv(w, s, a) && y.i == 0 && In(w, y) && y !in a.fin
    requires s'.delivered == s.delivered + [Result(Pe(T(w, y.key), 0), Id(y.key), Body(w, y.key, 0))]
    requires a'.done == a.done + [y.key] && a'.fin == a.fin + {y}
    ensures DoneInv(w, s', a')
  {
    hide T, Body;
    forall key | Node(key, 0) in a'.fin ensures key in a'.done {
      if key == y.key {
        assert a'.done[|a.done|] == key;
      } else {
        assert Node(key, 0) in a.fin;
      }
    }
  }

  lemma Merged(w: World, s: State, a: Ghost, y: Node, r: Record)
    requires WorldOk(w) && TreeInv(w, s, a) && RecOk(w, s, a, y, r) && r.local && r.kids == |r.remotes|
    ensures r.mine + Sum(r.remotes) == Body(w, y.key, y.i)
    ensures r.parent == ParentPe(T(w, y.key), y.i) && r.id == Id(y.key)
    ensures forall c :: c in KidSet(T(w, y.key), y.i) ==> c in a.Got(y)
  {
    hide T, Sum, Body;
    assert GotOk(w, a, y);
    MergeAll(w, y.key, y.i, a.Got(y));
    AllKids(T(w, y.key), y.i, a.Got(y));
  }

  /** CmiSendReduce keeps the invariant and leaves no record that could be sent. */
  lemma SendKeeps(w: World, s: State, a: Ghost, y: Node) returns (a': Ghost)
    requires Inv0(w, s, a) && In(w, y) && CellOf(w, y) in s.table
    requires RecOk(w, s, a, y, s.table[CellOf(w, y)])
    requires forall cell :: cell != CellOf(w, y) ==> Waiting(s, cell)
    ensures Inv(w, SendUp(s, CellOf(w, y)), a') && NoneNew(s, a, SendUp(s, CellOf(w, y)), a')
    ensures a'.flying <= a.flying + {y}
  {
    hide Live;
    var r := s.table[CellOf(w, y)];
    if r.local && r.kids == |r.remotes| {
      Merged(w, s, a, y, r);
      hide TreeInv, TableInv, IdInv, DoneInv, NetInv, NoneNew, T, Body, Sum;
      FinishUp(w, s, a, y, r);
      a' := Finish(w, a, y);
    } else {
      a' := a;
    }
    var s' := SendUp(s, CellOf(w, y));
    forall cell ensures Waiting(s', cell) {
      if cell != CellOf(w, y) {
        assert Waiting(s, cell);
      }
    }
  }

  // ----- a PE contributes

  /** The PE at `y` may contribute, and no other open reduction has the id. */
  ghost predicate Starts(w: World, s: State, y: Node)
    requires WorldOk(w) && In(w, y)
  {
    Enabled(w, s, Contribute(PeOf(w, y), y.key)) && IdFree(s, Contribute(PeOf(w, y), y.key))
  }

  /** The contribution is in its record; the record may now be complete. */
  lemma Contributed(w: World, s: State, a: Ghost, y: Node, r: Record, s': State, a': Ghost)
    requires Inv(w, s, a) && In(w, y) && Starts(w, s, y) && !Clash(s, CellOf(w, y), Id(y.key))
    requires r.id == Id(y.key) && r.local && r.mine == multiset{Tag(PeOf(w, y), y.key)}
    requires r.remotes == Bodies(w, y.key, a.Got(y))
    requires r.kids == Kids(T(w, y.key), y.i) && r.parent == ParentPe(T(w, y.key), y.i)
    requires s' == s.(table := s.table[CellOf(w, y) := r], started := s.started + {(PeOf(w, y), y.key)})
    requires a' == a.(owner := a.owner[CellOf(w, y) := y.key])
    requires CellOf(w, y) in s.table ==> CellOf(w, y) in a.owner && a.owner[CellOf(w, y)] == y.key
    requires y !in a.fin
    ensures Inv0(w, s', a') && RecOk(w, s', a', y, r) && CellOf(w, y) !in s'.running
    ensures forall k :: Live(s', a', k) ==> Live(s, a, k) || k == y.key
  {
    hide NetInv, DoneInv, T, Body, KidSet, Sum, IdInv, Live, IdFree;
    assert CellInv(w, s, a, CellOf(w, y));
    NotRunning(w, s, a, y);
    assert TreeInv(w, s', a') by {
      forall x ensures FinOk(w, s', a', x) && FlyOk(w, a', x) && GotOk(w, a', x) && Accounted(w, a', x) {
        assert FinOk(w, s, a, x) && FlyOk(w, a, x) && GotOk(w, a, x) && Accounted(w, a, x);
      }
    }
    ContributedTable(w, s, a, y, r, s', a');
    ContributedIds(w, s, a, y, s', a');
    assert NetInv(w, s', a') by { SameNet(w, s, a, s', a'); }
    assert DoneInv(w, s', a') by { SameDone(w, s, a, s', a'); }
  }

  lemma SameNet(w: World, s: State, a: Ghost, s': State, a': Ghost)
    requires WorldOk(w) && NetInv(w, s, a) && s'.net == s.net && a'.flying == a.flying
    ensures NetInv(w, s', a')
  {
  }

  lemma SameDone(w: World, s: State, a: Ghost, s': State, a': Ghost)
    requires WorldOk(w) && DoneInv(w, s, a) && s'.delivered == s.delivered && a'.fin == a.fin && a'.done == a.done
    ensures DoneInv(w, s', a')
  {
  }

  lemma ContributedTable(w: World, s: State, a: Ghost, y: Node, r: Record, s': State, a': Ghost)
    requires WorldOk(w) && TableInv(w, s, a) && In(w, y) && y !in a.fin
    requires r.id == Id(y.key) && r.local && r.mine == multiset{Tag(PeOf(w, y), y.key)}
    requires r.remotes == Bodies(w, y.key, a.Got(y))
    requires r.kids == Kids(T(w, y.key), y.i) && r.parent == ParentPe(T(w, y.key), y.i)
    requires s' == s.(table := s.table[CellOf(w, y) := r], started := s.started + {(PeOf(w, y), y.key)})
    requires a' == a.(owner := a.owner[CellOf(w, y) := y.key])
    requires CellOf(w, y) in s.table ==> CellOf(w, y) in a.owner && a.owner[CellOf(w, y)] == y.key
    requires CellOf(w, y) !in s.running
    ensures TableInv(w, s', a') && RecOk(w, s', a', y, r)
  {
    hide T, Body, KidSet, Sum;
    OwnerIs(w, y, CellOf(w, y));
    forall cell ensures CellInv(w, s', a', cell) {
      assert CellInv(w, s, a, cell);
      if cell != CellOf(w, y) && cell in s.table {
        assert CellOf(w, OwnerOf(w, a.owner[cell], cell)) == cell;
      }
    }
    forall x ensures OwnedOk(w, s', a', x) {
      assert OwnedOk(w, s, a, x) && CellInv(w, s, a, CellOf(w, y));
      if In(w, x) && PeOf(w, x) == PeOf(w, y) && x.key == y.key {
        PeInjective(T(w, x.key), x.i, y.i);
      }
    }
  }

  /** What is not over in the invariant's terms is open in the program's. */
  lemma LiveOpen(w: World, s: State, a: Ghost, k: Key)
    requires WorldOk(w) && TableInv(w, s, a) && DoneInv(w, s, a) && Live(s, a, k)
    ensures Open(s, k)
  {
    hide T, Body, KidSet, Id, OwnedOk, DoneInv;
    if Complete(s, k) {
      CompleteFin(w, s, a, k);
      var cell :| cell in s.running && cell in a.owner && a.owner[cell] == k;
      assert CellInv(w, s, a, cell);
      assert Tag(cell.pe, k) in s.table[cell].mine;
    }
  }

  /** A reduction that could be confused with the one that starts is over. */
  lemma ContributedIds(w: World, s: State, a: Ghost, y: Node, s': State, a': Ghost)
    requires Inv0(w, s, a) && In(w, y) && Starts(w, s, y) && CellOf(w, y) !in s.running
    requires s'.started == s.started + {(PeOf(w, y), y.key)} && s'.running == s.running && a'.fin == a.fin
    requires a'.owner == a.owner[CellOf(w, y) := y.key]
    ensures IdInv(w, s', a')
    ensures forall k :: Live(s', a', k) ==> Live(s, a, k) || k == y.key
  {
    hide T, Body, Id, TreeInv, NetInv, TableInv, DoneInv, CellOf;
    forall k | Live(s', a', k) && k != y.key ensures Live(s, a, k) && Id(k) != Id(y.key) {
      StartedBefore(s, a, y, s', a', k);
      LiveOpen(w, s, a, k);
    }
    hide Live, Open;
    forall j, k | Live(s', a', j) && Live(s', a', k) && Id(j) == Id(k) ensures j == k {
      if j != y.key && k != y.key {
        assert Live(s, a, j) && Live(s, a, k);
      }
    }
    forall p, k | (p, k) in s'.started ensures Member(T(w, k), p) {
      assert (p, k) in s.started || (p, k) == (PeOf(w, y), y.key);
    }
  }

  lemma StartedBefore(s: State, a: Ghost, y: Node, s': State, a': Ghost, k: Key)
    requires exists pe, cell :: cell !in s.running && s'.started == s.started + {(pe, y.key)}
                                && a'.owner == a.owner[cell := y.key]
    requires s'.running == s.running && a'.fin == a.fin && k != y.key && Live(s', a', k)
    ensures Live(s, a, k)
  {
    var pe, cell :| cell !in s.running && s'.started == s.started + {(pe, y.key)} && a'.owner == a.owner[cell := y.key];
    var p :| (p, k) in s'.started;
    assert (p, k) in s.started;
    if Held(s', a', k) {
      var c :| c in s'.running && c in a'.owner && a'.owner[c] == k;
      assert c in a.owner && a.owner[c] == k;
    }
  }

  lemma BodyKey(w: World, key: Key, i: nat, t: Tag)
    requires WorldOk(w) && t in Body(w, key, i)
    ensures t.key == key
  {
    assert t in Tags(w, key, Subtree(T(w, key), i));
  }

  lemma DoneAt(w: World, s: State, a: Ghost, d: Result) returns (j: nat)
    requires WorldOk(w) && DoneInv(w, s, a) && d in s.delivered
    ensures j < |a.done| && Node(a.done[j], 0) in a.fin && d.body == Body(w, a.done[j], 0)
  {
    j :| 0 <= j < |s.delivered| && s.delivered[j] == d;
  }

  lemma CompleteFin(w: World, s: State, a: Ghost, key: Key)
    requires WorldOk(w) && DoneInv(w, s, a) && Complete(s, key)
    ensures Node(key, 0) in a.fin
  {
    hide DoneInv, Body;
    var d :| d in s.delivered && exists t :: t in d.body && t.key == key;
    var t :| t in d.body && t.key == key;
    var j := DoneAt(w, s, a, d);
    BodyKey(w, a.done[j], 0, t);
  }

  lemma ContributeStep(w: World, s: State, a: Ghost, pe: int, key: Key) returns (a': Ghost)
    requires Inv(w, s, a) && Enabled(w, s, Contribute(pe, key)) && !Apply(w, s, Contribute(pe, key)).stopped
    requires IdFree(s, Contribute(pe, key))
    ensures var s' := Apply(w, s, Contribute(pe, key));
            Inv(w, s', a') && forall k :: Live(s', a', k) ==> Live(s, a, k) || k == key
  {
    var t := T(w, key);
    var y := Node(key, Pos(t, pe));
    var cell := CellOf(w, y);
    var r0 := Opened(w, s, cell, Id(key)).(local := true, mine := multiset{Tag(pe, key)});
    var r := if key.request then r0.(kids := Kids(t, y.i), parent := ParentPe(t, y.i)) else r0;
    var s1 := s.(table := s.table[cell := r], started := s.started + {(pe, key)});
    var a1 := a.(owner := a.owner[cell := key]);
    Unfinished(w, s, a, y);
    OpenedFor(w, s, a, y);
    hide Inv0, T, Body, Sum, Kids, ParentPe, Opened, Live;
    Contributed(w, s, a, y, r, s1, a1);
    forall c | c != cell ensures Waiting(s1, c) {
      assert Waiting(s, c);
    }
    a' := SendKeeps(w, s1, a1, y);
  }

  /** A PE that has not contributed has not sent. */
  lemma Unfinished(w: World, s: State, a: Ghost, y: Node)
    requires WorldOk(w) && TreeInv(w, s, a) && In(w, y) && (PeOf(w, y), y.key) !in s.started
    ensures y !in a.fin
  {
    assert FinOk(w, s, a, y);
  }

  /** What a PE finds when it contributes: no record, or the one its children's
      messages have made. */
  lemma OpenedFor(w: World, s: State, a: Ghost, y: Node)
    requires Inv(w, s, a) && In(w, y) && Starts(w, s, y) && !Clash(s, CellOf(w, y), Id(y.key))
    ensures CellOf(w, y) in s.table ==> CellOf(w, y) in a.owner && a.owner[CellOf(w, y)] == y.key
    ensures var r := Opened(w, s, CellOf(w, y), Id(y.key));
            && r.id == Id(y.key) && r.remotes == Bodies(w, y.key, a.Got(y))
            && (!y.key.request ==> r.kids == Kids(T(w, y.key), y.i) && r.parent == ParentPe(T(w, y.key), y.i))
  {
    var cell := CellOf(w, y);
    Unfinished(w, s, a, y);
    if cell in s.table {
      FoundOwn(w, s, a, y);
    } else {
      assert OwnedOk(w, s, a, y) && CellInv(w, s, a, cell);
      assert a.Got(y) == [];
      UpBelow(T(w, y.key), y.i);
    }
  }

  lemma FoundOwn(w: World, s: State, a: Ghost, y: Node)
    requires Inv(w, s, a) && In(w, y) && Starts(w, s, y) && y !in a.fin
    requires CellOf(w, y) in s.table && s.table[CellOf(w, y)].id == Id(y.key)
    ensures CellOf(w, y) in a.owner && a.owner[CellOf(w, y)] == y.key && RecOk(w, s, a, y, s.table[CellOf(w, y)])
  {
    hide TreeInv, NetInv, DoneInv, IdInv, T, KidSet, Body, Live, Open, Enabled;
    var cell := CellOf(w, y);
    assert CellInv(w, s, a, cell);
    OwnerLive(w, s, a, cell);
    LiveOpen(w, s, a, a.owner[cell]);
    OwnerIs(w, y, cell);
  }

  // ----- a child's message arrives

  lemma Sender(w: World, s: State, a: Ghost, m: Msg) returns (x: Node)
    requires WorldOk(w) && NetInv(w, s, a) && m in s.net
    ensures x in a.flying && In(w, x) && MsgOf(w, x) == m
  {
    x :| x in a.flying && In(w, x) && MsgOf(w, x) == m;
  }

  ghost function Heard(w: World, a: Ghost, x: Node): Ghost
    requires WorldOk(w) && In(w, x) && x.i > 0
  {
    var y := Parent(w, x);
    a.(flying := a.flying - {x}, got := a.got[y := a.Got(y) + [x.i]], owner := a.owner[CellOf(w, y) := x.key])
  }

  lemma HeardTree(w: World, s: State, a: Ghost, x: Node, s': State)
    requires WorldOk(w) && TreeInv(w, s, a) && In(w, x) && x in a.flying && x.i > 0 && s'.started == s.started
    ensures TreeInv(w, s', Heard(w, a, x))
  {
    hide T, KidSet;
    var a', y := Heard(w, a, x), Parent(w, x);
    assert FlyOk(w, a, x) && GotOk(w, a, y);
    assert forall c :: c in a'.Got(y) <==> c in a.Got(y) || c == x.i;
    forall z ensures FinOk(w, s', a', z) && FlyOk(w, a', z) && GotOk(w, a', z) && Accounted(w, a', z) {
      assert FinOk(w, s, a, z) && FlyOk(w, a, z) && GotOk(w, a, z) && Accounted(w, a, z);
      if In(w, z) && z.i > 0 && Parent(w, z) == y && z.i == x.i {
        assert z == x;
      }
    }
  }

  lemma BodiesSnoc(w: World, key: Key, cs: seq<nat>, c: nat)
    requires WorldOk(w)
    ensures Bodies(w, key, cs + [c]) == Bodies(w, key, cs) + [Body(w, key, c)]
  {
  }

  lemma HeardTable(w: World, s: State, a: Ghost, x: Node, r: Record, s': State)
    requires WorldOk(w) && TableInv(w, s, a) && In(w, x) && x.i > 0 && Parent(w, x) !in a.fin
    requires var y := Parent(w, x);
             && (CellOf(w, y) in s.table ==> CellOf(w, y) in a.owner && a.owner[CellOf(w, y)] == y.key)
             && RecOk(w, s', Heard(w, a, x), y, r)
             && s'.table == s.table[CellOf(w, y) := r] && s'.started == s.started
             && s'.running == s.running && CellOf(w, y) !in s.running
    ensures TableInv(w, s', Heard(w, a, x))
  {
    hide T, Body, KidSet, Sum;
    var a', y := Heard(w, a, x), Parent(w, x);
    OwnerIs(w, y, CellOf(w, y));
    forall cell ensures CellInv(w, s', a', cell) {
      assert CellInv(w, s, a, cell);
      if cell != CellOf(w, y) && cell in s.table {
        assert CellOf(w, OwnerOf(w, a.owner[cell], cell)) == cell;
      }
    }
    forall z ensures OwnedOk(w, s', a', z) {
      assert OwnedOk(w, s, a, z) && CellInv(w, s, a, CellOf(w, y));
    }
  }

  /** What a message finds: no record yet, or the one of its own reduction. */
  lemma HeardRecord(w: World, s: State, a: Ghost, x: Node)
    requires Inv(w, s, a) && In(w, x) && x in a.flying && x.i > 0
    requires !Clash(s, CellOf(w, Parent(w, x)), Id(x.key))
    ensures var y, cell := Parent(w, x), CellOf(w, Parent(w, x));
            var r := Opened(w, s, cell, Id(x.key));
            && (cell in s.table ==> cell in a.owner && a.owner[cell] == y.key)
            && cell !in s.running
            && RecOk(w, s, Heard(w, a, x), y, r.(remotes := r.remotes + [Body(w, x.key, x.i)]))
  {
    hide NetInv, Body, KidSet, Sum, DoneInv;
    var y := Parent(w, x);
    var cell := CellOf(w, y);
    assert FlyOk(w, a, x) && FinOk(w, s, a, x);
    BodiesSnoc(w, x.key, a.Got(y), x.i);
    if cell in s.table {
      assert Live(s, a, x.key) by {
        if Node(x.key, 0) in a.fin {
          AllFinished(w, s, a, x.key, y.i);
        }
      }
      SameOwner(w, s, a, y);
    } else {
      assert OwnedOk(w, s, a, y) && CellInv(w, s, a, cell);
      assert a.Got(y) == [] && (PeOf(w, y), y.key) !in s.started;
      UpBelow(T(w, y.key), y.i);
    }
  }

  /** The message is in its record; the record may now be complete. */
  lemma Arrived(w: World, s: State, a: Ghost, x: Node, r: Record, s': State)
    requires Inv0(w, s, a) && In(w, x) && x in a.flying && x.i > 0 && Parent(w, x) !in a.fin
    requires var y := Parent(w, x);
             && (CellOf(w, y) in s.table ==> CellOf(w, y) in a.owner && a.owner[CellOf(w, y)] == y.key)
             && RecOk(w, s, Heard(w, a, x), y, r) && CellOf(w, y) !in s.running
             && s' == s.(net := s.net - multiset{MsgOf(w, x)}, table := s.table[CellOf(w, y) := r])
    ensures Inv0(w, s', Heard(w, a, x)) && RecOk(w, s', Heard(w, a, x), Parent(w, x), r)
    ensures NoneNew(s, a, s', Heard(w, a, x))
  {
    hide TreeInv, TableInv, DoneInv, IdInv, T, MsgOf, RecOk, NoneNew;
    var a' := Heard(w, a, x);
    HeardTree(w, s, a, x, s');
    HeardRec(w, s, s', a', Parent(w, x), r);
    HeardTable(w, s, a, x, r, s');
    MsgsRemove(w, a.flying, x);
    SameIds(w, s, a, s', a', CellOf(w, Parent(w, x)));
    SameDone(w, s, a, s', a');
  }

  lemma SenderAt(w: World, s: State, a: Ghost, m: Msg) returns (x: Node)
    requires Inv0(w, s, a) && m in s.net
    ensures x in a.flying && In(w, x) && x.i > 0 && Parent(w, x) !in a.fin && MsgOf(w, x) == m
    ensures Cell(m.dest, Slot(m.id)) == CellOf(w, Parent(w, x)) && m.id == Id(x.key) && m.body == Body(w, x.key, x.i)
  {
    x := Sender(w, s, a, m);
    assert FlyOk(w, a, x);
    hide T, Body;
    UpBelow(T(w, x.key), x.i);
  }

  ghost function Recorded(w: World, s: State, m: Msg): State
    requires WorldOk(w)
  {
    var cell := Cell(m.dest, Slot(m.id));
    var r := Opened(w, s, cell, m.id);
    s.(net := s.net - multiset{m}, table := s.table[cell := r.(remotes := r.remotes + [m.body])])
  }

  lemma ArriveIs(w: World, s: State, m: Msg)
    requires Enabled(w, s, Arrive(m)) && !Apply(w, s, Arrive(m)).stopped
    ensures WorldOk(w) && m in s.net && !Clash(s, Cell(m.dest, Slot(m.id)), m.id)
    ensures Cell(m.dest, Slot(m.id)) in Recorded(w, s, m).table
    ensures Apply(w, s, Arrive(m)) == SendUp(Recorded(w, s, m), Cell(m.dest, Slot(m.id)))
  {
  }

  lemma ArriveRecorded(w: World, s: State, a: Ghost, m: Msg) returns (a': Ghost, y: Node, x: Node)
    requires Inv(w, s, a) && m in s.net && !Clash(s, Cell(m.dest, Slot(m.id)), m.id)
    ensures Inv0(w, Recorded(w, s, m), a') && In(w, y) && CellOf(w, y) == Cell(m.dest, Slot(m.id))
    ensures RecOk(w, Recorded(w, s, m), a', y, Recorded(w, s, m).table[CellOf(w, y)])
    ensures NoneNew(s, a, Recorded(w, s, m), a')
    ensures In(w, x) && MsgOf(w, x) == m && x !in a'.flying && y != x
  {
    x := SenderAt(w, s, a, m);
    assert x !in Heard(w, a, x).flying && Parent(w, x) != x;
    hide Inv0, T, Body, Sum, Opened, MsgOf, RecOk, Heard, Id, CellOf, Parent, Waiting, NoneNew;
    HeardRecord(w, s, a, x);
    y, a' := Parent(w, x), Heard(w, a, x);
    var s1 := Recorded(w, s, m);
    Arrived(w, s, a, x, s1.table[CellOf(w, y)], s1);
  }

  lemma ArriveStep(w: World, s: State, a: Ghost, m: Msg) returns (a': Ghost)
    requires Inv(w, s, a) && Enabled(w, s, Arrive(m)) && !Apply(w, s, Arrive(m)).stopped
    ensures Inv(w, Apply(w, s, Arrive(m)), a') && NoneNew(s, a, Apply(w, s, Arrive(m)), a')
    ensures m !in Apply(w, s, Arrive(m)).net
  {
    hide Inv0, RecOk, SendUp, CellOf, Apply, Clash, Opened, Live, Waiting, MsgOf, NoneNew, Recorded, Enabled;
    ArriveIs(w, s, m);
    var a1, y, x := ArriveRecorded(w, s, a, m);
    OthersWait(w, s, m);
    var s1 := Recorded(w, s, m);
    a' := SendKeeps(w, s1, a1, y);
    StillNone(s, a, s1, a1, Apply(w, s, Arrive(m)), a');
    TakenOff(w, Apply(w, s, Arrive(m)), a', x);
  }

  lemma StillNone(s: State, a: Ghost, s1: State, a1: Ghost, s2: State, a2: Ghost)
    requires NoneNew(s, a, s1, a1) && NoneNew(s1, a1, s2, a2)
    ensures NoneNew(s, a, s2, a2)
  {
    hide Live;
  }

  /** A message that is not under way is not in the network. */
  lemma TakenOff(w: World, s: State, a: Ghost, x: Node)
    requires Inv0(w, s, a) && In(w, x) && x !in a.flying
    ensures MsgOf(w, x) !in s.net
  {
    hide TreeInv, TableInv, DoneInv, IdInv, T, MsgOf;
    if MsgOf(w, x) in s.net {
      var z := Sender(w, s, a, MsgOf(w, x));
      MsgInjective(w, x, z);
    }
  }

  lemma OthersWait(w: World, s: State, m: Msg)
    requires WorldOk(w) && forall c :: Waiting(s, c)
    ensures forall c :: c != Cell(m.dest, Slot(m.id)) ==> Waiting(Recorded(w, s, m), c)
  {
    hide Opened;
    forall c | c != Cell(m.dest, Slot(m.id)) ensures Waiting(Recorded(w, s, m), c) {
      assert Waiting(s, c);
    }
  }

  lemma HeardRec(w: World, s: State, s': State, a: Ghost, y: Node, r: Record)
    requires WorldOk(w) && RecOk(w, s, a, y, r) && s'.started == s.started
    ensures RecOk(w, s', a, y, r)
  {
  }

  lemma SameIds(w: World, s: State, a: Ghost, s': State, a': Ghost, here: Cell)
    requires WorldOk(w) && IdInv(w, s, a) && s'.started == s.started && a'.fin == a.fin
    requires s'.running <= s.running && here !in s'.running
    requires forall c :: c in a'.owner && c != here ==> c in a.owner && a.owner[c] == a'.owner[c]
    ensures IdInv(w, s', a') && NoneNew(s, a, s', a')
  {
    hide T, Id;
    forall k | Live(s', a', k) ensures Live(s, a, k) {
    }
  }

  // ----- a root handler returns

  lemma ReturnStep(w: World, s: State, a: Ghost, cell: Cell) returns (a': Ghost)
    requires Inv(w, s, a) && Enabled(w, s, Return(cell))
    ensures Inv(w, Apply(w, s, Return(cell)), a') && NoneNew(s, a, Apply(w, s, Return(cell)), a')
  {
    hide NetInv, DoneInv, IdInv, NoneNew, T, Body, KidSet, Kids, Id;
    var s' := Apply(w, s, Return(cell));
    a' := a.(owner := a.owner - {cell});
    assert TreeInv(w, s', a') by {
      forall x ensures FinOk(w, s', a', x) && FlyOk(w, a', x) && GotOk(w, a', x) && Accounted(w, a', x) {
        assert FinOk(w, s, a, x) && FlyOk(w, a, x) && GotOk(w, a, x) && Accounted(w, a, x);
      }
    }
    ReturnTable(w, s, a, cell, s', a');
    SameNet(w, s, a, s', a');
    SameDone(w, s, a, s', a');
    SameIds(w, s, a, s', a', cell);
    forall c ensures Waiting(s', c) {
      assert Waiting(s, c);
    }
  }

  /** When a root handler returns its reduction is over, and its slot is free for the
      next. */
  lemma ReturnCloses(w: World, acts: seq<Action>, cell: Cell) returns (key: Key)
    requires WorldOk(w) && Legal(w, acts) && IdsFree(w, acts) && Enabled(w, After(w, acts), Return(cell))
    ensures var s, s' := After(w, acts), Apply(w, After(w, acts), Return(cell));
            && Open(s, key) && Complete(s, key) && Slot(Id(key)) == cell.slot
            && !Open(s', key) && cell !in s'.table
  {
    hide Inv0, Live, Open, Enabled, Apply, IdFree;
    var s := After(w, acts);
    var a, z := RunInv(w, acts);
    RunningSoFar(w, s, Return(cell));
    key := RunningKey(w, s, a, cell);
    LiveIsOpen(w, s, a, key);
    ClosedAfter(w, s, a, cell, key);
  }

  lemma RunningKey(w: World, s: State, a: Ghost, cell: Cell) returns (key: Key)
    requires Inv0(w, s, a) && Enabled(w, s, Return(cell))
    ensures cell in s.running && cell in s.table && cell in a.owner && key == a.owner[cell]
    ensures Live(s, a, key) && Complete(s, key) && Slot(Id(key)) == cell.slot
  {
    hide NetInv, IdInv, T, Body, KidSet, Kids, Id, Slot;
    assert CellInv(w, s, a, cell);
    key := a.owner[cell];
    var y := OwnerOf(w, key, cell);
    assert FinOk(w, s, a, y);
    var j :| 0 <= j < |a.done| && a.done[j] == key;
    OwnTag(w, Node(key, 0));
    assert s.delivered[j] in s.delivered && Tag(PeOf(w, Node(key, 0)), key) in s.delivered[j].body;
  }

  lemma ClosedAfter(w: World, s: State, a: Ghost, cell: Cell, key: Key)
    requires Inv0(w, s, a) && Enabled(w, s, Return(cell)) && cell in a.owner && a.owner[cell] == key && Complete(s, key)
    ensures cell !in Apply(w, s, Return(cell)).table && !Open(Apply(w, s, Return(cell)), key)
  {
    hide NetInv, IdInv, TreeInv, DoneInv, T, Body, KidSet, Kids, Id, Slot;
    var s' := Apply(w, s, Return(cell));
    assert CellInv(w, s, a, cell);
    assert Complete(s', key);
    forall c | c in s.running && c in s.table && Tag(c.pe, key) in s.table[c].mine ensures c == cell {
      assert CellInv(w, s, a, c);
      SameRoot(w, a, cell, c, key);
    }
  }

  /** A reduction has one root record. */
  lemma SameRoot(w: World, a: Ghost, c: Cell, d: Cell, key: Key)
    requires WorldOk(w) && Member(T(w, key), c.pe) && Member(T(w, key), d.pe)
    requires OwnerOf(w, key, c).i == 0 && OwnerOf(w, key, d).i == 0 && c.slot == d.slot
    ensures c == d
  {
  }

  lemma ReturnTable(w: World, s: State, a: Ghost, cell: Cell, s': State, a': Ghost)
    requires WorldOk(w) && TableInv(w, s, a) && cell in s.running
    requires s' == s.(table := s.table - {cell}, running := s.running - {cell}) && a' == a.(owner := a.owner - {cell})
    ensures TableInv(w, s', a')
  {
    hide T, Body, KidSet, Kids;
    assert CellInv(w, s, a, cell);
    forall c ensures CellInv(w, s', a', c) {
      assert CellInv(w, s, a, c);
    }
    forall y ensures OwnedOk(w, s', a', y) {
      assert OwnedOk(w, s, a, y);
      if In(w, y) && CellOf(w, y) == cell {
        OwnerIs(w, y, cell);
      }
    }
  }

  // ----- whole runs

  ghost predicate Legal(w: World, acts: seq<Action>)
    decreases |acts|, 0
  {
    acts == [] || (Legal(w, acts[..|acts| - 1]) && Enabled(w, After(w, acts[..|acts| - 1]), acts[|acts| - 1]))
  }

  ghost function After(w: World, acts: seq<Action>): State
    requires Legal(w, acts)
    decreases |acts|, 1
  {
    if acts == [] then FRESH else Apply(w, After(w, acts[..|acts| - 1]), acts[|acts| - 1])
  }

  /** Along the run no PE starts a reduction whose id an open one has. */
  ghost predicate IdsFree(w: World, acts: seq<Action>)
    requires Legal(w, acts)
  {
    acts == [] || (IdsFree(w, acts[..|acts| - 1]) && IdFree(After(w, acts[..|acts| - 1]), acts[|acts| - 1]))
  }

  /** A run in which no PE starts a reduction `bound` or more calls away from an open
      one of the same counter. */
  ghost predicate NearRun(w: World, acts: seq<Action>, bound: nat)
    decreases |acts|
  {
    && Legal(w, acts)
    && (acts == [] ||
        (NearRun(w, acts[..|acts| - 1], bound) && Near(After(w, acts[..|acts| - 1]), acts[|acts| - 1], bound)))
  }

  lemma Start(w: World)
    requires WorldOk(w)
    ensures Inv(w, FRESH, NOTHING)
  {
    hide T, Body;
    var s, a := FRESH, NOTHING;
    assert Msgs(w, a.flying) == {};
    forall x
      ensures FinOk(w, s, a, x) && FlyOk(w, a, x) && GotOk(w, a, x) && Accounted(w, a, x) && OwnedOk(w, s, a, x)
    {
    }
  }

  /** A step that stops the program delivers nothing. */
  lemma StopKeeps(w: World, s: State, act: Action)
    requires Enabled(w, s, act) && Apply(w, s, act).stopped
    ensures Apply(w, s, act).delivered == s.delivered
  {
    hide T, Sum, Opened, Kids, ParentPe, Complete;
  }

  /** Along every run the invariant holds until the program stops, if it does. */
  lemma {:induction false} RunInv(w: World, acts: seq<Action>) returns (a: Ghost, s: State)
    requires WorldOk(w) && Legal(w, acts) && IdsFree(w, acts)
    ensures Inv(w, s, a) && s.delivered == After(w, acts).delivered
    ensures !After(w, acts).stopped ==> s == After(w, acts)
    decreases |acts|
  {
    hide Inv, Enabled, Apply, IdFree, Live, NoneNew;
    if acts == [] {
      Start(w);
      a, s := NOTHING, FRESH;
    } else {
      var s0, act := After(w, acts[..|acts| - 1]), acts[|acts| - 1];
      var a0, z := RunInv(w, acts[..|acts| - 1]);
      RunningSoFar(w, s0, act);
      if Apply(w, s0, act).stopped {
        StopKeeps(w, s0, act);
        a, s := a0, s0;
      } else {
        match act {
          case Contribute(pe, key) => a := ContributeStep(w, s0, a0, pe, key);
          case Arrive(m) => a := ArriveStep(w, s0, a0, m);
          case Return(cell) => a := ReturnStep(w, s0, a0, cell);
        }
        s := Apply(w, s0, act);
      }
    }
  }

  lemma RunningSoFar(w: World, s: State, act: Action)
    requires Enabled(w, s, act)
    ensures !s.stopped
  {
  }

  lemma RootBody(w: World, key: Key)
    requires WorldOk(w)
    ensures Body(w, key, 0) == Everyone(w, key)
  {
    RootSubtree(T(w, key));
    assert Tags(w, key, Subtree(T(w, key), 0)) == set i: nat | i < Size(T(w, key)) :: Tag(Pe(T(w, key), i), key);
  }

  /** Exactness, over every run of any machine: each time a root handler runs, it is
      for a reduction it has not run for before, and the merged message holds the
      contribution of every PE of that reduction, once, and nothing else. */
  lemma Exact(w: World, acts: seq<Action>) returns (keys: seq<Key>)
    requires WorldOk(w) && Legal(w, acts) && IdsFree(w, acts)
    ensures var d := After(w, acts).delivered;
            && |keys| == |d|
            && (forall j, k :: 0 <= j < k < |keys| ==> keys[j] != keys[k])
            && (forall j :: 0 <= j < |d| ==>
                  Size(T(w, keys[j])) > 0 && d[j] == Result(Pe(T(w, keys[j]), 0), Id(keys[j]), Everyone(w, keys[j])))
  {
    var a, s := RunInv(w, acts);
    hide T, Body, TreeInv, TableInv, IdInv, NetInv, Everyone, Legal, After;
    keys := a.done;
    forall j | 0 <= j < |keys| ensures Body(w, keys[j], 0) == Everyone(w, keys[j]) {
      RootBody(w, keys[j]);
    }
  }

  lemma GotBound(w: World, a: Ghost, y: Node)
    requires WorldOk(w) && GotOk(w, a, y) && In(w, y)
    ensures |a.Got(y)| <= Kids(T(w, y.key), y.i)
  {
    hide T, KidSet, Kids;
    KidCount(T(w, y.key), y.i);
    var cs := set c | c in a.Got(y);
    SetOfDistinct(a.Got(y), cs);
    SubsetSize(cs, KidSet(T(w, y.key), y.i));
  }

  /** No PE is sent more messages than it has children, so none is written past the
      child slots that CmiGetCreateReduction allocated. */
  lemma NoOverflow(w: World, acts: seq<Action>, cell: Cell)
    requires WorldOk(w) && Legal(w, acts) && IdsFree(w, acts)
    requires !After(w, acts).stopped && cell in After(w, acts).table && cell.pe >= 0
    ensures var slots := SpanKids(w.nodes, w.size, cell.pe);
            |After(w, acts).table[cell].remotes| <= if slots > WIDTH then slots else WIDTH
  {
    var a, s := RunInv(w, acts);
    hide NetInv, DoneInv, IdInv, Body, KidSet, Legal, After;
    assert CellInv(w, s, a, cell);
    var key := a.owner[cell];
    var y := Node(key, Pos(T(w, key), cell.pe));
    assert GotOk(w, a, y);
    GotBound(w, a, y);
    if key.request {
      Kids4Range(|w.lists(key.n)|, y.i, 1);
    }
  }

  lemma NoneFlying(w: World, s: State, a: Ghost, x: Node)
    requires WorldOk(w) && TreeInv(w, s, a) && NetInv(w, s, a) && s.net == multiset{}
    ensures x !in a.flying
  {
    assert FlyOk(w, a, x);
    MsgThere(w, a.flying, x);
  }

  lemma MsgThere(w: World, flying: set<Node>, x: Node)
    requires WorldOk(w)
    ensures x in flying && In(w, x) ==> MsgOf(w, x) in multiset(Msgs(w, flying))
  {
    hide MsgOf;
  }

  /** With no message under way, every position whose PEs have all contributed has
      sent. */
  lemma {:induction false} AllSent(w: World, s: State, a: Ghost, key: Key, i: nat)
    requires Inv(w, s, a) && s.net == multiset{} && i < Size(T(w, key))
    requires forall q: nat :: q < Size(T(w, key)) ==> (Pe(T(w, key), q) as int, key) in s.started
    ensures Node(key, i) in a.fin
    decreases Size(T(w, key)) - i
  {
    var y := Node(key, i);
    if y !in a.fin {
      forall c | c in KidSet(T(w, key), i) ensures c in a.Got(y) {
        UpBelow(T(w, key), c);
        AllSent(w, s, a, key, c);
        assert Accounted(w, a, Node(key, c));
        NoneFlying(w, s, a, Node(key, c));
      }
      SentAlready(w, s, a, y);
    }
  }

  /** A position that has everything has sent. */
  lemma SentAlready(w: World, s: State, a: Ghost, y: Node)
    requires Inv(w, s, a) && In(w, y) && (PeOf(w, y), y.key) in s.started
    requires forall c :: c in KidSet(T(w, y.key), y.i) ==> c in a.Got(y)
    ensures y in a.fin
  {
    hide NetInv, DoneInv, IdInv, T, Body, KidSet, Kids;
    assert Waiting(s, CellOf(w, y));
    if y !in a.fin {
      assert OwnedOk(w, s, a, y) && CellInv(w, s, a, CellOf(w, y)) && GotOk(w, a, y);
      PosIs(T(w, y.key), y.i);
      KidCount(T(w, y.key), y.i);
      SetOfDistinct(a.Got(y), KidSet(T(w, y.key), y.i));
    }
  }

  /** Once every PE of a reduction has contributed and no message is under way, the
      root handler has run for it: no reduction is left hanging. */
  lemma NothingStuck(w: World, acts: seq<Action>, key: Key)
    requires WorldOk(w) && Legal(w, acts) && IdsFree(w, acts)
    requires !After(w, acts).stopped && After(w, acts).net == multiset{}
    requires forall q: nat :: q < Size(T(w, key)) ==> (Pe(T(w, key), q) as int, key) in After(w, acts).started
    ensures Complete(After(w, acts), key)
  {
    var a, s := RunInv(w, acts);
    SizePositive(T(w, key));
    AllSent(w, s, a, key, 0);
    hide T, Body, TreeInv, TableInv, IdInv, NetInv, Legal, After;
    var j :| 0 <= j < |a.done| && a.done[j] == key;
    OwnTag(w, Node(key, 0));
    assert s.delivered[j] in s.delivered && Tag(PeOf(w, Node(key, 0)), key) in s.delivered[j].body;
  }

  /** A message under way belongs to a reduction that is not over, with its id. */
  lemma SenderLive(w: World, s: State, a: Ghost, m: Msg) returns (j: Key)
    requires Inv0(w, s, a) && m in s.net
    ensures Live(s, a, j) && Id(j) == m.id
  {
    hide TreeInv, NetInv, DoneInv, IdInv, TableInv, Body, T, Live, CellOf, MsgOf, Parent;
    var x := SenderAt(w, s, a, m);
    FlyingLive(w, s, a, x);
    j := x.key;
  }

  lemma FlyingLive(w: World, s: State, a: Ghost, x: Node)
    requires WorldOk(w) && TreeInv(w, s, a) && x in a.flying
    ensures Live(s, a, x.key)
  {
    hide KidSet, T;
    assert FlyOk(w, a, x) && FinOk(w, s, a, x);
    if Node(x.key, 0) in a.fin {
      AllFinished(w, s, a, x.key, Parent(w, x).i);
    }
  }

  /** Two reductions of one counter that use the same slot. */
  predicate ShareSlot(j: Key, k: Key) {
    j != k && j.request == k.request && (j.n - k.n) % (SLOTS / 2) == 0
  }

  lemma ContributeStops(w: World, s: State, a: Ghost, pe: int, key: Key) returns (k: Key)
    requires Inv(w, s, a) && Enabled(w, s, Contribute(pe, key)) && Apply(w, s, Contribute(pe, key)).stopped
    ensures Live(s, a, k) && ShareSlot(k, key)
  {
    ClashAt(w, s, pe, key);
    var cell := Cell(pe, Slot(Id(key)));
    assert CellInv(w, s, a, cell);
    hide TreeInv, DoneInv, NetInv, IdInv, TableInv, RecOk, RootOk, Enabled, Apply, Live, Id, Slot, T;
    OwnerLive(w, s, a, cell);
    k := a.owner[cell];
    IdsAndSlots(k, key);
  }

  lemma ArriveStops(w: World, s: State, a: Ghost, m: Msg) returns (j: Key, k: Key)
    requires Inv(w, s, a) && Enabled(w, s, Arrive(m)) && Apply(w, s, Arrive(m)).stopped
    ensures Live(s, a, j) && Id(j) == m.id && Live(s, a, k) && ShareSlot(k, j)
  {
    ArrivalClash(w, s, m);
    var cell := Cell(m.dest, Slot(m.id));
    assert CellInv(w, s, a, cell);
    hide TreeInv, DoneInv, NetInv, IdInv, TableInv, RecOk, RootOk, Enabled, Apply, Live, Id, Slot, T;
    OwnerLive(w, s, a, cell);
    k := a.owner[cell];
    j := SenderLive(w, s, a, m);
    IdsAndSlots(k, j);
  }

  /** Over every run: the program stops only when a call, or a child's message,
      needs the slot of another open reduction of the same counter, a multiple of 16
      calls away. */
  lemma StopsOnClash(w: World, acts: seq<Action>)
    requires WorldOk(w) && Legal(w, acts) && IdsFree(w, acts) && After(w, acts).stopped
    ensures acts != []
    ensures var s, act := After(w, acts[..|acts| - 1]), acts[|acts| - 1];
            match act
            case Contribute(pe, key) => exists k :: Open(s, k) && ShareSlot(k, key)
            case Arrive(m) => exists j, k :: Open(s, j) && Id(j) == m.id && Open(s, k) && ShareSlot(k, j)
            case Return(cell) => false
  {
    hide Inv0, Live, Open, Enabled, Apply, IdFree, ShareSlot;
    var s, act := After(w, acts[..|acts| - 1]), acts[|acts| - 1];
    var a, z := RunInv(w, acts[..|acts| - 1]);
    RunningSoFar(w, s, act);
    match act {
      case Contribute(pe, key) =>
        var k := ContributeStops(w, s, a, pe, key);
        LiveIsOpen(w, s, a, k);
      case Arrive(m) =>
        var j, k := ArriveStops(w, s, a, m);
        LiveIsOpen(w, s, a, j);
        LiveIsOpen(w, s, a, k);
      case Return(cell) =>
        ReturnGoesOn(w, s, cell);
    }
  }

  lemma LiveIsOpen(w: World, s: State, a: Ghost, k: Key)
    requires Inv0(w, s, a) && Live(s, a, k)
    ensures Open(s, k)
  {
    hide TableInv, DoneInv, TreeInv, NetInv, IdInv, Live, Open;
    LiveOpen(w, s, a, k);
  }

  lemma ReturnGoesOn(w: World, s: State, cell: Cell)
    requires Enabled(w, s, Return(cell))
    ensures !Apply(w, s, Return(cell)).stopped
  {
  }

  lemma ArrivalClash(w: World, s: State, m: Msg)
    requires Enabled(w, s, Arrive(m)) && Apply(w, s, Arrive(m)).stopped
    ensures m in s.net && Clash(s, Cell(m.dest, Slot(m.id)), m.id)
  {
    hide Sum, Opened, Kids, ParentPe, Complete;
  }

  lemma ClashAt(w: World, s: State, pe: int, key: Key)
    requires Enabled(w, s, Contribute(pe, key)) && Apply(w, s, Contribute(pe, key)).stopped
    ensures Clash(s, Cell(pe, Slot(Id(key))), Id(key))
  {
    hide Sum, Opened, Kids, ParentPe, Complete;
  }
}
