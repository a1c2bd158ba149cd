/** The scheduler queue of src/queueing.cpp: one deque per priority level, kept in
    priority order, with a deque of its own for priority zero and a few drained
    levels kept allocated. */
module PrioQueue {
  import opened Collections

  // ----- the queue it stands for: one list, ordered by priority

  datatype Item = Item(prio: int, msg: nat)

  /** Behind everything of the same priority. */
  function InsertBack(s: seq<Item>, x: Item): seq<Item> {
    if s == [] || s[0].prio > x.prio then [x] + s else [s[0]] + InsertBack(s[1..], x)
  }

  /** Ahead of everything of the same priority. */
  function InsertFront(s: seq<Item>, x: Item): seq<Item> {
    if s == [] || s[0].prio >= x.prio then [x] + s else [s[0]] + InsertFront(s[1..], x)
  }

  lemma {:induction false} BackBetween(a: seq<Item>, b: seq<Item>, x: Item)
    requires forall i :: 0 <= i < |a| ==> a[i].prio <= x.prio
    requires b != [] ==> b[0].prio > x.prio
    ensures InsertBack(a + b, x) == a + [x] + b
  {
    if a == [] {
      assert a + b == b;
    } else {
      BackBetween(a[1..], b, x);
      assert (a + b)[0] == a[0] && (a + b)[1..] == a[1..] + b;
      assert [a[0]] + (a[1..] + [x] + b) == a + [x] + b;
    }
  }

  lemma {:induction false} FrontBetween(a: seq<Item>, b: seq<Item>, x: Item)
    requires forall i :: 0 <= i < |a| ==> a[i].prio < x.prio
    requires b != [] ==> b[0].prio >= x.prio
    ensures InsertFront(a + b, x) == a + [x] + b
  {
    if a == [] {
      assert a + b == b;
    } else {
      FrontBetween(a[1..], b, x);
      assert (a + b)[0] == a[0] && (a + b)[1..] == a[1..] + b;
      assert [a[0]] + (a[1..] + [x] + b) == a + [x] + b;
    }
  }

  // ----- levels

  datatype Level = Level(prio: int, msgs: seq<nat>)

  ghost function Items(l: Level): seq<Item> {
    seq(|l.msgs|, i requires 0 <= i < |l.msgs| => Item(l.prio, l.msgs[i]))
  }

  ghost function Flat(ls: seq<Level>): seq<Item> {
    if ls == [] then [] else Items(ls[0]) + Flat(ls[1..])
  }

  ghost predicate Ordered(ls: seq<Level>) {
    forall i, j :: 0 <= i < j < |ls| ==> ls[i].prio < ls[j].prio
  }

  lemma {:induction false} FlatConcat(a: seq<Level>, b: seq<Level>)
    ensures Flat(a + b) == Flat(a) + Flat(b)
  {
    hide Items;
    if a == [] {
      assert a + b == b;
    } else {
      FlatConcat(a[1..], b);
      assert (a + b)[1..] == a[1..] + b;
    }
  }

  lemma {:induction false} FlatEmpty(ls: seq<Level>)
    ensures Flat(ls) == [] <==> forall i :: 0 <= i < |ls| ==> ls[i].msgs == []
  {
    if ls != [] {
      FlatEmpty(ls[1..]);
      assert |Items(ls[0])| == |ls[0].msgs|;
    }
  }

  ghost predicate AllBelow(s: seq<Item>, p: int) {
    forall i :: 0 <= i < |s| ==> s[i].prio < p
  }

  ghost predicate AllAbove(s: seq<Item>, p: int) {
    forall i :: 0 <= i < |s| ==> s[i].prio > p
  }

  lemma {:induction false} Below(ls: seq<Level>, p: int)
    requires forall i :: 0 <= i < |ls| ==> ls[i].prio < p
    ensures AllBelow(Flat(ls), p)
  {
    if ls != [] {
      Below(ls[1..], p);
    }
  }

  lemma {:induction false} Above(ls: seq<Level>, p: int)
    requires forall i :: 0 <= i < |ls| ==> ls[i].prio > p
    ensures AllAbove(Flat(ls), p)
  {
    if ls != [] {
      Above(ls[1..], p);
    }
  }

  lemma FlatOne(l: Level)
    ensures Flat([l]) == Items(l)
  {
    assert [l][1..] == [];
    assert Items(l) + [] == Items(l);
  }

  lemma Around(ls: seq<Level>, k: nat)
    requires k < |ls|
    ensures ls == ls[..k] + [ls[k]] + ls[k + 1..]
  {
  }

  lemma FlatSplit(ls: seq<Level>, k: nat)
    requires k < |ls|
    ensures Flat(ls) == Flat(ls[..k]) + Items(ls[k]) + Flat(ls[k + 1..])
  {
    hide Flat, Items;
    Around(ls, k);
    FlatConcat(ls[..k] + [ls[k]], ls[k + 1..]);
    FlatConcat(ls[..k], [ls[k]]);
    FlatOne(ls[k]);
  }

  /** Everything before a level is smaller, everything after it larger. */
  lemma FlatAround(ls: seq<Level>, k: nat)
    requires Ordered(ls) && k < |ls|
    ensures Flat(ls) == Flat(ls[..k]) + Items(ls[k]) + Flat(ls[k + 1..])
    ensures AllBelow(Flat(ls[..k]), ls[k].prio) && AllAbove(Flat(ls[k + 1..]), ls[k].prio)
  {
    hide Flat, Items;
    FlatSplit(ls, k);
    Below(ls[..k], ls[k].prio);
    Above(ls[k + 1..], ls[k].prio);
  }

  lemma ItemsBack(l: Level, m: nat)
    ensures Items(l.(msgs := l.msgs + [m])) == Items(l) + [Item(l.prio, m)]
    ensures forall i :: 0 <= i < |Items(l)| ==> Items(l)[i].prio == l.prio
  {
  }

  lemma ItemsFront(l: Level, m: nat)
    ensures Items(l.(msgs := [m] + l.msgs)) == [Item(l.prio, m)] + Items(l)
    ensures Items(l) != [] ==> Items(l)[0].prio == l.prio
  {
  }

  /** A push at the back of a level is an insertion behind its priority. */
  lemma PushBackAt(ls: seq<Level>, k: nat, m: nat)
    requires Ordered(ls) && k < |ls|
    ensures Flat(ls[k := ls[k].(msgs := ls[k].msgs + [m])]) == InsertBack(Flat(ls), Item(ls[k].prio, m))
  {
    hide Flat, Items, Ordered, InsertBack;
    var ls', x := ls[k := ls[k].(msgs := ls[k].msgs + [m])], Item(ls[k].prio, m);
    FlatAround(ls, k);
    FlatSplit(ls', k);
    assert ls'[..k] == ls[..k] && ls'[k + 1..] == ls[k + 1..];
    ItemsBack(ls[k], m);
    var a, i, b := Flat(ls[..k]), Items(ls[k]), Flat(ls[k + 1..]);
    BackBetween(a + i, b, x);
    assert a + (i + [x]) == a + i + [x];
  }

  lemma PushFrontAt(ls: seq<Level>, k: nat, m: nat)
    requires Ordered(ls) && k < |ls|
    ensures Flat(ls[k := ls[k].(msgs := [m] + ls[k].msgs)]) == InsertFront(Flat(ls), Item(ls[k].prio, m))
  {
    hide Flat, Items, Ordered, InsertFront;
    var ls', x := ls[k := ls[k].(msgs := [m] + ls[k].msgs)], Item(ls[k].prio, m);
    FlatAround(ls, k);
    FlatSplit(ls', k);
    assert ls'[..k] == ls[..k] && ls'[k + 1..] == ls[k + 1..];
    ItemsFront(ls[k], m);
    var a, i, b := Flat(ls[..k]), Items(ls[k]), Flat(ls[k + 1..]);
    FrontBetween(a, i + b, x);
    assert a + (i + b) == a + i + b && a + ([x] + i) + b == a + [x] + (i + b);
  }

  /** A pop of the first level that is not empty drops the first item. */
  lemma PopAt(ls: seq<Level>, k: nat)
    requires k < |ls| && ls[k].msgs != [] && forall i :: 0 <= i < k ==> ls[i].msgs == []
    ensures Flat(ls) != [] && Flat(ls)[0] == Item(ls[k].prio, ls[k].msgs[0])
    ensures Flat(ls[k := ls[k].(msgs := ls[k].msgs[1..])]) == Flat(ls)[1..]
  {
    var l := ls[k].(msgs := ls[k].msgs[1..]);
    var ls', x := ls[k := l], Item(ls[k].prio, ls[k].msgs[0]);
    FlatEmpty(ls[..k]);
    FlatSplit(ls, k);
    FlatSplit(ls', k);
    assert ls'[..k] == ls[..k] && ls'[k + 1..] == ls[k + 1..];
    assert Items(ls[k]) == [x] + Items(l);
    DropFirst(x, Items(l), Flat(ls[k + 1..]));
    hide Flat, Items;
  }

  lemma DropFirst(x: Item, a: seq<Item>, b: seq<Item>)
    ensures ([] + ([x] + a) + b)[0] == x && ([] + ([x] + a) + b)[1..] == [] + a + b
  {
  }

  lemma ItemsNone(l: Level)
    requires l.msgs == []
    ensures Items(l) == []
  {
  }

  /** Empty levels come and go without a trace. */
  lemma DropEmpty(ls: seq<Level>, k: nat)
    requires k < |ls| && ls[k].msgs == []
    ensures Flat(ls[..k] + ls[k + 1..]) == Flat(ls)
  {
    hide Flat, Items;
    FlatSplit(ls, k);
    FlatConcat(ls[..k], ls[k + 1..]);
    ItemsNone(ls[k]);
    assert Flat(ls[..k]) + [] == Flat(ls[..k]);
  }

  lemma AddEmpty(ls: seq<Level>, k: nat, p: int)
    requires k <= |ls|
    ensures Flat(ls[..k] + [Level(p, [])] + ls[k..]) == Flat(ls)
  {
    hide Flat;
    var ls' := ls[..k] + [Level(p, [])] + ls[k..];
    DropEmpty(ls', k);
    assert ls'[..k] + ls'[k + 1..] == ls;
  }

  // ----- the queue

  /** kKeptEmptyLevels */
  const KEPT: nat := 4
  /** LLONG_MAX */
  const NO_PRIORITY: int := 0x7fff_ffff_ffff_ffff

  ghost function Empties(ls: seq<Level>): nat {
    if ls == [] then 0 else (if ls[0].msgs == [] then 1 else 0) + Empties(ls[1..])
  }

  lemma {:induction false} EmptiesSplit(ls: seq<Level>, k: nat)
    requires k < |ls|
    ensures Empties(ls) == Empties(ls[..k]) + (if ls[k].msgs == [] then 1 else 0) + Empties(ls[k + 1..])
  {
    if k > 0 {
      EmptiesSplit(ls[1..], k - 1);
      assert ls[1..][..k - 1] == ls[..k][1..];
      assert ls[1..][k..] == ls[k + 1..];
    }
  }

  lemma {:induction false} EmptiesConcat(a: seq<Level>, b: seq<Level>)
    ensures Empties(a + b) == Empties(a) + Empties(b)
  {
    if a == [] {
      assert a + b == b;
    } else {
      EmptiesConcat(a[1..], b);
      assert (a + b)[1..] == a[1..] + b;
    }
  }

  /** Where the level of priority zero belongs among the others. */
  ghost function ZeroAt(ls: seq<Level>): (k: nat)
    ensures k <= |ls| && (forall i :: 0 <= i < k ==> ls[i].prio < 0) && (k < |ls| ==> ls[k].prio >= 0)
  {
    if ls == [] || ls[0].prio >= 0 then 0 else 1 + ZeroAt(ls[1..])
  }

  /** All levels, priority zero in its place. */
  ghost function All(ls: seq<Level>, zero: seq<nat>): (all: seq<Level>)
    ensures |all| == |ls| + 1
  {
    ls[..ZeroAt(ls)] + [Level(0, zero)] + ls[ZeroAt(ls)..]
  }

  ghost predicate LevelsOk(ls: seq<Level>) {
    Ordered(ls) && forall i :: 0 <= i < |ls| ==> ls[i].prio != 0
  }

  lemma ZeroIs(ls: seq<Level>, k: nat)
    requires LevelsOk(ls) && k <= |ls|
    requires (forall i :: 0 <= i < k ==> ls[i].prio < 0) && (k < |ls| ==> ls[k].prio > 0)
    ensures ZeroAt(ls) == k
  {
    assert ZeroAt(ls) == k || ZeroAt(ls) < k || k < ZeroAt(ls);
  }

  lemma AllOrdered(ls: seq<Level>, zero: seq<nat>)
    requires LevelsOk(ls)
    ensures Ordered(All(ls, zero))
  {
    var z, all := ZeroAt(ls), All(ls, zero);
    forall i, j | 0 <= i < j < |all| ensures all[i].prio < all[j].prio {
      if i < z && j > z {
        assert all[j] == ls[j - 1];
      }
    }
  }

  /** Where level `i` of the map is among all levels. */
  ghost function Place(ls: seq<Level>, i: nat): nat {
    if i < ZeroAt(ls) then i else i + 1
  }

  lemma AllSet(ls: seq<Level>, zero: seq<nat>, i: nat, l: Level)
    requires LevelsOk(ls) && i < |ls| && l.prio == ls[i].prio
    ensures LevelsOk(ls[i := l]) && All(ls, zero)[Place(ls, i)] == ls[i]
    ensures All(ls[i := l], zero) == All(ls, zero)[Place(ls, i) := l]
  {
    hide ZeroAt;
    var ls', z := ls[i := l], ZeroAt(ls);
    ZeroIs(ls', z);
  }

  lemma AllZero(ls: seq<Level>, zero: seq<nat>, zero': seq<nat>)
    ensures All(ls, zero)[ZeroAt(ls)] == Level(0, zero)
    ensures All(ls, zero') == All(ls, zero)[ZeroAt(ls) := Level(0, zero')]
  {
    hide ZeroAt;
  }

  /** Adding an empty level for a new priority. */
  lemma AllInsert(ls: seq<Level>, zero: seq<nat>, k: nat, p: int)
    requires LevelsOk(ls) && k <= |ls| && p != 0
    requires (forall i :: 0 <= i < k ==> ls[i].prio < p) && (forall i :: k <= i < |ls| ==> ls[i].prio > p)
    ensures var ls' := ls[..k] + [Level(p, [])] + ls[k..];
            && LevelsOk(ls') && Flat(All(ls', zero)) == Flat(All(ls, zero))
            && Empties(ls') == Empties(ls) + 1
  {
    hide All, Flat, Empties, LevelsOk;
    InsertOk(ls, k, p);
    AllInsertAt(ls, zero, k, p);
    AddEmpty(All(ls, zero), if p < 0 then k else k + 1, p);
    InsertCount(ls, k, p);
  }

  lemma InsertCount(ls: seq<Level>, k: nat, p: int)
    requires k <= |ls|
    ensures Empties(ls[..k] + [Level(p, [])] + ls[k..]) == Empties(ls) + 1
  {
    hide Empties;
    var ls' := ls[..k] + [Level(p, [])] + ls[k..];
    EmptiesSplit(ls', k);
    EmptiesConcat(ls[..k], ls[k..]);
    assert ls'[..k] == ls[..k] && ls'[k + 1..] == ls[k..] && ls[..k] + ls[k..] == ls;
  }

  lemma ZeroSide(ls: seq<Level>, k: nat, p: int)
    requires k <= |ls| && p != 0
    requires (forall i :: 0 <= i < k ==> ls[i].prio < p) && (forall i :: k <= i < |ls| ==> ls[i].prio > p)
    ensures if p < 0 then k <= ZeroAt(ls) else ZeroAt(ls) <= k
  {
    hide ZeroAt;
    var z := ZeroAt(ls);
    assert z < k ==> ls[z].prio < p;
    assert k < z ==> ls[k].prio > p;
  }

  lemma AllInsertAt(ls: seq<Level>, zero: seq<nat>, k: nat, p: int)
    requires LevelsOk(ls) && k <= |ls| && p != 0 && LevelsOk(ls[..k] + [Level(p, [])] + ls[k..])
    requires (forall i :: 0 <= i < k ==> ls[i].prio < p) && (forall i :: k <= i < |ls| ==> ls[i].prio > p)
    ensures var k' := if p < 0 then k else k + 1;
            All(ls[..k] + [Level(p, [])] + ls[k..], zero) == All(ls, zero)[..k'] + [Level(p, [])] + All(ls, zero)[k'..]
  {
    hide ZeroAt;
    var ls', z := ls[..k] + [Level(p, [])] + ls[k..], ZeroAt(ls);
    ZeroSide(ls, k, p);
    InsertSides(ls, k, p);
    if p < 0 {
      ZeroIs(ls', z + 1);
      hide LevelsOk;
      InsertBelow(ls, Level(p, []), Level(0, zero), k, z);
    } else {
      ZeroIs(ls', z);
      hide LevelsOk;
      InsertAbove(ls, Level(p, []), Level(0, zero), k, z);
    }
  }

  lemma InsertSides(ls: seq<Level>, k: nat, p: int)
    requires k <= |ls| && (if p < 0 then k <= ZeroAt(ls) else ZeroAt(ls) <= k) && p != 0
    requires forall i :: 0 <= i < |ls| ==> ls[i].prio != 0
    ensures var ls', z := ls[..k] + [Level(p, [])] + ls[k..], if p < 0 then ZeroAt(ls) + 1 else ZeroAt(ls);
            && (forall i :: 0 <= i < z ==> ls'[i].prio < 0) && (z < |ls'| ==> ls'[z].prio > 0)
  {
    hide ZeroAt;
    var ls', z := ls[..k] + [Level(p, [])] + ls[k..], if p < 0 then ZeroAt(ls) + 1 else ZeroAt(ls);
    forall i | 0 <= i < z ensures ls'[i].prio < 0 {
      assert ls'[i] == if i < k then ls[i] else if i == k then Level(p, []) else ls[i - 1];
    }
    assert z < |ls'| ==> ls'[z] == if z < k then ls[z] else if z == k then Level(p, []) else ls[z - 1];
  }

  lemma InsertBelow(ls: seq<Level>, e: Level, m: Level, k: nat, z: nat)
    requires k <= z <= |ls|
    ensures var ls', all := ls[..k] + [e] + ls[k..], ls[..z] + [m] + ls[z..];
            ls'[..z + 1] + [m] + ls'[z + 1..] == all[..k] + [e] + all[k..]
  {
  }

  lemma InsertAbove(ls: seq<Level>, e: Level, m: Level, k: nat, z: nat)
    requires z <= k <= |ls|
    ensures var ls', all := ls[..k] + [e] + ls[k..], ls[..z] + [m] + ls[z..];
            ls'[..z] + [m] + ls'[z..] == all[..k + 1] + [e] + all[k + 1..]
  {
  }

  lemma InsertOk(ls: seq<Level>, k: nat, p: int)
    requires LevelsOk(ls) && k <= |ls| && p != 0
    requires (forall i :: 0 <= i < k ==> ls[i].prio < p) && (forall i :: k <= i < |ls| ==> ls[i].prio > p)
    ensures LevelsOk(ls[..k] + [Level(p, [])] + ls[k..])
  {
  }

  /** Erasing a drained level. */
  lemma AllErase(ls: seq<Level>, zero: seq<nat>, k: nat)
    requires LevelsOk(ls) && k < |ls| && ls[k].msgs == []
    ensures var ls' := ls[..k] + ls[k + 1..];
            && LevelsOk(ls') && Flat(All(ls', zero)) == Flat(All(ls, zero))
            && Empties(ls') + 1 == Empties(ls)
  {
    hide Flat, Empties;
    var ls' := ls[..k] + ls[k + 1..];
    EraseOk(ls, k);
    AllInsert(ls', zero, k, ls[k].prio);
    assert ls'[..k] + [ls[k]] + ls'[k..] == ls;
  }

  lemma EraseOk(ls: seq<Level>, k: nat)
    requires LevelsOk(ls) && k < |ls|
    ensures var ls' := ls[..k] + ls[k + 1..];
            && LevelsOk(ls') && (forall i :: 0 <= i < k ==> ls'[i].prio < ls[k].prio)
            && (forall i :: k <= i < |ls'| ==> ls'[i].prio > ls[k].prio)
  {
    var ls' := ls[..k] + ls[k + 1..];
    forall i | 0 <= i < |ls'| ensures ls'[i] == ls[if i < k then i else i + 1] {
    }
  }

  ghost predicate Sorted(s: seq<Item>) {
    forall i, j :: 0 <= i < j < |s| ==> s[i].prio <= s[j].prio
  }

  /** Messages come out in increasing priority value. */
  lemma {:induction false} FlatSorted(ls: seq<Level>)
    requires Ordered(ls)
    ensures Sorted(Flat(ls))
  {
    if ls != [] {
      FlatSorted(ls[1..]);
      Above(ls[1..], ls[0].prio);
    }
  }

  /** An insertion adds one item and keeps the order of the others. */
  lemma {:induction false} InsertBackKeeps(s: seq<Item>, x: Item)
    requires Sorted(s)
    ensures Sorted(InsertBack(s, x))
    ensures exists k :: 0 <= k <= |s| && InsertBack(s, x) == s[..k] + [x] + s[k..]
                        && (forall i :: 0 <= i < k ==> s[i].prio <= x.prio)
                        && (forall i :: k <= i < |s| ==> s[i].prio > x.prio)
  {
    var k := BackPlace(s, x);
    assert s == s[..k] + s[k..];
    BackBetween(s[..k], s[k..], x);
  }

  lemma BackPlace(s: seq<Item>, x: Item) returns (k: nat)
    requires Sorted(s)
    ensures k <= |s| && (forall i :: 0 <= i < k ==> s[i].prio <= x.prio)
    ensures forall i :: k <= i < |s| ==> s[i].prio > x.prio
  {
    k := 0;
    while k < |s| && s[k].prio <= x.prio
      invariant k <= |s| && forall i :: 0 <= i < k ==> s[i].prio <= x.prio
    {
      k := k + 1;
    }
  }

  /** The same, ahead of its equals. */
  lemma {:induction false} InsertFrontKeeps(s: seq<Item>, x: Item)
    requires Sorted(s)
    ensures Sorted(InsertFront(s, x))
    ensures exists k :: 0 <= k <= |s| && InsertFront(s, x) == s[..k] + [x] + s[k..]
                        && (forall i :: 0 <= i < k ==> s[i].prio < x.prio)
                        && (forall i :: k <= i < |s| ==> s[i].prio >= x.prio)
  {
    var k := FrontPlace(s, x);
    assert s == s[..k] + s[k..];
    FrontBetween(s[..k], s[k..], x);
  }

  lemma FrontPlace(s: seq<Item>, x: Item) returns (k: nat)
    requires Sorted(s)
    ensures k <= |s| && (forall i :: 0 <= i < k ==> s[i].prio < x.prio)
    ensures forall i :: k <= i < |s| ==> s[i].prio >= x.prio
  {
    k := 0;
    while k < |s| && s[k].prio < x.prio
      invariant k <= |s| && forall i :: 0 <= i < k ==> s[i].prio < x.prio
    {
      k := k + 1;
    }
  }

  /** The level a pointer names. */
  datatype Where = At(i: nat) | Zero | Nowhere

  class Queue {
    var levels: seq<Level>
    var zero: seq<nat>
    var emptyLevels: nat
    var size: nat

    ghost function Contents(): seq<Item> reads this {
      Flat(All(levels, zero))
    }

    ghost predicate Valid() reads this {
      LevelsOk(levels) && emptyLevels == Empties(levels) <= KEPT && size == |Contents()|
    }

    /** `w` names the level of the first message. */
    ghost predicate Front(w: Where) reads this {
      match w
      case At(i) =>
        && i < |levels| && levels[i].msgs != [] && (forall k :: 0 <= k < i ==> levels[k].msgs == [])
        && (levels[i].prio > 0 ==> zero == [])
      case Zero => zero != [] && forall k :: 0 <= k < |levels| && levels[k].prio < 0 ==> levels[k].msgs == []
      case Nowhere => zero == [] && forall k :: 0 <= k < |levels| ==> levels[k].msgs == []
    }

    constructor ()
      ensures Valid() && Contents() == []
    {
      levels, zero, emptyLevels, size := [], [], 0, 0;
      new;
      FlatEmpty(All(levels, zero));
    }

    /** front_level */
    method FrontLevel() returns (w: Where)
      requires LevelsOk(levels)
      ensures Front(w)
    {
      var i := 0;
      while i < |levels| && levels[i].prio < 0
        invariant 0 <= i <= |levels| && forall k :: 0 <= k < i ==> levels[k].msgs == [] && levels[k].prio < 0
      {
        if levels[i].msgs != [] {
          return At(i);
        }
        i := i + 1;
      }
      if zero != [] {
        return Zero;
      }
      while i < |levels|
        invariant 0 <= i <= |levels| && forall k :: 0 <= k < i ==> levels[k].msgs == []
      {
        if levels[i].msgs != [] {
          return At(i);
        }
        i := i + 1;
      }
      return Nowhere;
    }

    /** What the front level says about the contents. */
    lemma FrontIs(w: Where)
      requires LevelsOk(levels) && Front(w)
      ensures w.Nowhere? <==> Contents() == []
      ensures w.At? ==> Contents()[0] == Item(levels[w.i].prio, levels[w.i].msgs[0])
      ensures w.Zero? ==> Contents()[0] == Item(0, zero[0])
      ensures w.At? ==> Flat(All(levels[w.i := levels[w.i].(msgs := levels[w.i].msgs[1..])], zero)) == Contents()[1..]
      ensures w.Zero? ==> Flat(All(levels, zero[1..])) == Contents()[1..]
    {
      hide Flat, Empties, ZeroAt;
      var all, z := All(levels, zero), ZeroAt(levels);
      match w {
        case At(i) =>
          var l := levels[i].(msgs := levels[i].msgs[1..]);
          AllSet(levels, zero, i, l);
          PopAt(all, Place(levels, i));
        case Zero =>
          AllZero(levels, zero, zero[1..]);
          PopAt(all, z);
        case Nowhere =>
          FlatEmpty(all);
      }
    }

    /** What the queue stands for is ordered by priority. */
    lemma ContentsSorted()
      requires Valid()
      ensures Sorted(Contents())
    {
      hide Flat, All, Sorted;
      AllOrdered(levels, zero);
      FlatSorted(All(levels, zero));
    }

    method Top() returns (r: Option<nat>)
      requires Valid()
      ensures r == if Contents() == [] then None else Some(Contents()[0].msg)
    {
      if size == 0 {
        return None;
      }
      var w := FrontLevel();
      FrontIs(w);
      match w {
        case At(i) => r := Some(levels[i].msgs[0]);
        case Zero => r := Some(zero[0]);
        case Nowhere => r := None;
      }
    }

    /** QueueTopPriority walks the levels itself. */
    method TopPriority() returns (p: int)
      requires Valid()
      ensures p == if Contents() == [] then NO_PRIORITY else Contents()[0].prio
    {
      if size == 0 {
        return NO_PRIORITY;
      }
      var i := 0;
      while i < |levels| && levels[i].prio < 0
        invariant 0 <= i <= |levels| && forall k :: 0 <= k < i ==> levels[k].msgs == [] && levels[k].prio < 0
      {
        if levels[i].msgs != [] {
          FrontIs(At(i));
          return levels[i].prio;
        }
        i := i + 1;
      }
      if zero != [] {
        FrontIs(Zero);
        return 0;
      }
      while i < |levels|
        invariant 0 <= i <= |levels| && forall k :: 0 <= k < i ==> levels[k].msgs == []
      {
        if levels[i].msgs != [] {
          FrontIs(At(i));
          return levels[i].prio;
        }
        i := i + 1;
      }
      FrontIs(Nowhere);
      return NO_PRIORITY;
    }

    /** level_for: the level of a priority, made if need be. Its emptyLevels is the
        count without that level, which is about to be filled. */
    method LevelFor(priority: int) returns (w: Where)
      requires Valid()
      modifies this
      ensures LevelsOk(levels) && Contents() == old(Contents()) && size == old(size) && emptyLevels <= KEPT
      ensures priority == 0 ==> w == Zero && emptyLevels == Empties(levels)
      ensures priority != 0 ==> w.At? && w.i < |levels| && levels[w.i].prio == priority
                                && emptyLevels + (if levels[w.i].msgs == [] then 1 else 0) == Empties(levels)
    {
      if priority == 0 {
        return Zero;
      }
      hide Flat, All, Empties;
      var k := 0;
      while k < |levels| && levels[k].prio < priority
        invariant 0 <= k <= |levels| && forall i :: 0 <= i < k ==> levels[i].prio < priority
      {
        k := k + 1;
      }
      if k == |levels| || levels[k].prio != priority {
        AllInsert(levels, zero, k, priority);
        levels := levels[..k] + [Level(priority, [])] + levels[k..];
      } else if levels[k].msgs == [] {
        EmptiesSplit(levels, k);
        emptyLevels := emptyLevels - 1;
      }
      w := At(k);
    }

    method Push(m: nat, priority: int)
      requires Valid()
      modifies this
      ensures Valid() && Contents() == InsertBack(old(Contents()), Item(priority, m))
    {
      hide Flat, All, Empties, InsertBack, ZeroAt;
      var w := LevelFor(priority);
      AllOrdered(levels, zero);
      match w {
        case Zero =>
          AllZero(levels, zero, zero + [m]);
          PushBackAt(All(levels, zero), ZeroAt(levels), m);
          zero := zero + [m];
        case At(i) =>
          var l := levels[i].(msgs := levels[i].msgs + [m]);
          AllSet(levels, zero, i, l);
          PushBackAt(All(levels, zero), Place(levels, i), m);
          FilledCount(levels, i, l);
          levels := levels[i := l];
        case Nowhere =>
      }
      InsertBackSize(old(Contents()), Item(priority, m));
      size := size + 1;
    }

    method PushFront(m: nat, priority: int)
      requires Valid()
      modifies this
      ensures Valid() && Contents() == InsertFront(old(Contents()), Item(priority, m))
    {
      hide Flat, All, Empties, InsertFront, ZeroAt;
      var w := LevelFor(priority);
      AllOrdered(levels, zero);
      match w {
        case Zero =>
          AllZero(levels, zero, [m] + zero);
          PushFrontAt(All(levels, zero), ZeroAt(levels), m);
          zero := [m] + zero;
        case At(i) =>
          var l := levels[i].(msgs := [m] + levels[i].msgs);
          AllSet(levels, zero, i, l);
          PushFrontAt(All(levels, zero), Place(levels, i), m);
          FilledCount(levels, i, l);
          levels := levels[i := l];
        case Nowhere =>
      }
      InsertFrontSize(old(Contents()), Item(priority, m));
      size := size + 1;
    }

    /** A level that is drained stays allocated unless four are kept already. */
    method Pop()
      requires Valid()
      modifies this
      ensures Valid() && Contents() == if old(Contents()) == [] then [] else old(Contents())[1..]
      ensures old(emptyLevels) < KEPT ==>
                |levels| == |old(levels)| && forall k :: 0 <= k < |levels| ==> levels[k].prio == old(levels)[k].prio
      ensures emptyLevels >= old(emptyLevels) && |levels| + 1 >= |old(levels)|
    {
      hide Flat, All, Empties, ZeroAt;
      if size == 0 {
        return;
      }
      var w := FrontLevel();
      FrontIs(w);
      match w {
        case Nowhere =>
        case Zero =>
          zero := zero[1..];
          size := size - 1;
        case At(i) =>
          var l := levels[i].(msgs := levels[i].msgs[1..]);
          AllSet(levels, zero, i, l);
          DrainedCount(levels, i, l);
          levels := levels[i := l];
          size := size - 1;
          if l.msgs == [] {
            if emptyLevels < KEPT {
              emptyLevels := emptyLevels + 1;
            } else {
              AllErase(levels, zero, i);
              levels := levels[..i] + levels[i + 1..];
            }
          }
      }
    }
  }

  lemma {:induction false} InsertBackSize(s: seq<Item>, x: Item)
    ensures |InsertBack(s, x)| == |s| + 1
  {
    if s != [] {
      InsertBackSize(s[1..], x);
    }
  }

  lemma {:induction false} InsertFrontSize(s: seq<Item>, x: Item)
    ensures |InsertFront(s, x)| == |s| + 1
  {
    if s != [] {
      InsertFrontSize(s[1..], x);
    }
  }

  lemma FilledCount(ls: seq<Level>, i: nat, l: Level)
    requires i < |ls| && l.msgs != []
    ensures Empties(ls[i := l]) == Empties(ls) - (if ls[i].msgs == [] then 1 else 0)
  {
    EmptiesSplit(ls, i);
    EmptiesSplit(ls[i := l], i);
    assert ls[i := l][..i] == ls[..i] && ls[i := l][i + 1..] == ls[i + 1..];
  }

  lemma DrainedCount(ls: seq<Level>, i: nat, l: Level)
    requires i < |ls| && ls[i].msgs != []
    ensures Empties(ls[i := l]) == Empties(ls) + (if l.msgs == [] then 1 else 0)
  {
    EmptiesSplit(ls, i);
    EmptiesSplit(ls[i := l], i);
    assert ls[i := l][..i] == ls[..i] && ls[i := l][i + 1..] == ls[i + 1..];
  }
}
