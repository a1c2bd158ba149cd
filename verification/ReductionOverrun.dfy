/** What happens past the limits: a run whose result mixes two reductions, once a
    counter's ids repeat, and one that stops on a taken slot. Both are runs of any
    machine with two or more PEs, with every PE's calls in the order its counter
    gives. */
module ReductionOverrun {
  import opened Collections
  import opened SpanTree
  import opened Reduction
  import opened ReductionSafety

  /** All reductions of the counter are over the tree `t`, of two or more PEs. */
  ghost predicate Uniform(w: World, request: bool, t: Tree) {
    WorldOk(w) && Size(t) >= 2 && forall n: nat :: T(w, Key(request, n)) == t
  }

  /** CmiReduce always is; CmiListReduce when it is called with one list. */
  lemma UniformMachines(w: World, pes: seq<nat>)
    requires WorldOk(w)
    ensures w.nodes * w.size >= 2 ==> Uniform(w, false, Span(w.nodes, w.size))
    ensures |pes| >= 2 && (forall n: nat :: w.lists(n) == pes) ==> Uniform(w, true, Listed(pes))
  {
  }

  lemma TreeIs(w: World, request: bool, t: Tree, key: Key)
    requires Uniform(w, request, t) && key.request == request
    ensures WorldOk(w) && TreeOk(t) && Size(t) >= 2 && T(w, key) == t && (t.Span? ==> t == Span(w.nodes, w.size))
    ensures t.Span? <==> !request
  {
    assert key == Key(request, key.n);
  }

  // ----- one call

  /** The record of a PE that calls before any child's message. */
  ghost function FirstRecord(t: Tree, i: nat, key: Key): Record
    requires TreeOk(t) && i < Size(t)
  {
    Record(Id(key), Kids(t, i), ParentPe(t, i), true, multiset{Tag(Pe(t, i), key)}, [])
  }

  ghost function Called(s: State, t: Tree, i: nat, key: Key): State
    requires TreeOk(t) && i < Size(t)
  {
    s.(table := s.table[Cell(Pe(t, i), Slot(Id(key))) := FirstRecord(t, i, key)],
       started := s.started + {(Pe(t, i), key)})
  }

  lemma CallIs(w: World, s: State, t: Tree, i: nat, key: Key)
    requires Uniform(w, key.request, t) && i < Size(t) && !s.stopped && (Pe(t, i) as int, key) !in s.started
    requires Cell(Pe(t, i), Slot(Id(key))) !in s.table
    ensures TreeOk(t) && Enabled(w, s, Contribute(Pe(t, i), key))
    ensures Apply(w, s, Contribute(Pe(t, i), key)) == SendUp(Called(s, t, i, key), Cell(Pe(t, i), Slot(Id(key))))
  {
    TreeIs(w, key.request, t, key);
    hide Uniform, Id, Slot, SendUp, Kids4, SpanUp, SpanKids;
    PosIs(t, i);
    UpBelow(t, i);
  }

  /** The last position is a leaf. */
  lemma LastIsLeaf(t: Tree)
    requires TreeOk(t) && Size(t) >= 2
    ensures Kids(t, Size(t) - 1) == 0 && KidSet(t, Size(t) - 1) == {} && ParentPe(t, Size(t) - 1) != -1
  {
    var last := Size(t) - 1;
    UpBelow(t, last);
    KidCount(t, last);
    forall c | c in KidSet(t, last) ensures false {
      UpBelow(t, c);
    }
    assert KidSet(t, last) == {};
  }

  lemma RootHasKids(t: Tree)
    requires TreeOk(t) && Size(t) >= 2
    ensures Kids(t, 0) >= 1
  {
    UpBelow(t, 1);
    KidCount(t, 0);
    assert 1 in KidSet(t, 0);
  }

  ghost function LeafMsg(t: Tree, key: Key): Msg
    requires TreeOk(t) && Size(t) >= 2
  {
    Msg(ParentPe(t, Size(t) - 1), Id(key), multiset{Tag(Pe(t, Size(t) - 1), key)})
  }

  /** A leaf sends at once. */
  lemma LeafCalls(w: World, s: State, t: Tree, key: Key)
    requires Uniform(w, key.request, t) && !s.stopped && s.table == map[]
    requires (Pe(t, Size(t) - 1) as int, key) !in s.started
    ensures TreeOk(t) && Enabled(w, s, Contribute(Pe(t, Size(t) - 1), key))
    ensures Apply(w, s, Contribute(Pe(t, Size(t) - 1), key)) ==
            s.(net := s.net + multiset{LeafMsg(t, key)}, started := s.started + {(Pe(t, Size(t) - 1), key)})
  {
    hide Id, Slot, Apply, Enabled, Uniform, Kids, ParentPe;
    TreeIs(w, key.request, t, key);
    var last := Size(t) - 1;
    CallIs(w, s, t, last, key);
    LastIsLeaf(t);
    var cell, s1 := Cell(Pe(t, last), Slot(Id(key))), Called(s, t, last, key);
    assert s1.table - {cell} == map[];
    assert s1.table[cell].mine + Sum([]) == multiset{Tag(Pe(t, last), key)};
    assert SendUp(s1, cell) == s1.(table := map[], net := s.net + multiset{LeafMsg(t, key)});
  }

  // ----- runs

  /** The first `n` calls of a PE, in order. */
  function Calls(pe: nat, request: bool, n: nat): seq<Action> {
    if n == 0 then [] else Calls(pe, request, n - 1) + [Contribute(pe, Key(request, n - 1))]
  }

  /** Nothing has completed, and only the first `n` reductions have been called. */
  ghost predicate OnlyKeys(s: State, request: bool, n: nat) {
    && !s.stopped && s.delivered == [] && s.running == {}
    && (forall p, k :: (p, k) in s.started ==> k.request == request && k.n < n)
  }

  lemma CallNear(s: State, request: bool, n: nat, pe: nat, m: nat, bound: nat)
    requires OnlyKeys(s, request, n) && n <= bound && m < bound
    ensures Near(s, Contribute(pe, Key(request, m)), bound)
  {
    hide Complete, Running;
  }

  lemma ArriveNear(s: State, m: Msg, bound: nat)
    ensures Near(s, Arrive(m), bound)
  {
  }

  lemma EmptyRun(w: World, bound: nat)
    ensures NearRun(w, [], bound) && After(w, []) == FRESH
  {
  }

  lemma LegalRun(w: World, acts: seq<Action>, bound: nat)
    requires NearRun(w, acts, bound)
    ensures Legal(w, acts)
  {
  }

  lemma Snoc(w: World, acts: seq<Action>, act: Action, bound: nat)
    requires NearRun(w, acts, bound) && Enabled(w, After(w, acts), act) && Near(After(w, acts), act, bound)
    ensures NearRun(w, acts + [act], bound) && After(w, acts + [act]) == Apply(w, After(w, acts), act)
  {
    hide Near, Enabled, Apply;
    assert (acts + [act])[..|acts|] == acts;
  }

  // ----- the leaf runs ahead

  /** The leaf has made `n` calls; its messages wait, and no other PE has called. */
  ghost predicate Ahead(s: State, t: Tree, request: bool, n: nat)
    requires TreeOk(t) && Size(t) >= 2
  {
    && OnlyKeys(s, request, n) && s.table == map[]
    && (forall p, k :: (p, k) in s.started ==> p == Pe(t, Size(t) - 1))
    && (forall j: nat :: j < n ==> LeafMsg(t, Key(request, j)) in s.net)
  }

  lemma AheadStep(w: World, s: State, t: Tree, request: bool, n: nat)
    requires Uniform(w, request, t) && TreeOk(t) && Ahead(s, t, request, n)
    ensures var act := Contribute(Pe(t, Size(t) - 1), Key(request, n));
            Enabled(w, s, act) && Ahead(Apply(w, s, act), t, request, n + 1)
  {
    hide Enabled, Apply, Id, ParentPe;
    LeafCalls(w, s, t, Key(request, n));
  }

  lemma {:induction false} RunAhead(w: World, t: Tree, request: bool, n: nat, bound: nat)
    requires Uniform(w, request, t) && TreeOk(t) && n <= bound
    ensures var acts := Calls(Pe(t, Size(t) - 1), request, n);
            NearRun(w, acts, bound) && Ahead(After(w, acts), t, request, n)
  {
    hide Near, Enabled, Apply, NearRun, Ahead, T;
    var pe := Pe(t, Size(t) - 1);
    if n == 0 {
      EmptyRun(w, bound);
      NoneAhead(t, request);
    } else {
      var acts := Calls(pe, request, n - 1);
      RunAhead(w, t, request, n - 1, bound);
      LegalRun(w, acts, bound);
      AheadStep(w, After(w, acts), t, request, n - 1);
      AheadNear(After(w, acts), t, request, n - 1, bound);
      Snoc(w, acts, Contribute(pe, Key(request, n - 1)), bound);
    }
  }

  lemma NoneAhead(t: Tree, request: bool)
    requires TreeOk(t) && Size(t) >= 2
    ensures Ahead(FRESH, t, request, 0)
  {
  }

  lemma AheadNear(s: State, t: Tree, request: bool, n: nat, bound: nat)
    requires TreeOk(t) && Size(t) >= 2 && Ahead(s, t, request, n) && n < bound
    ensures Near(s, Contribute(Pe(t, Size(t) - 1), Key(request, n)), bound)
  {
    hide Near, OnlyKeys;
    CallNear(s, request, n, Pe(t, Size(t) - 1), n, bound);
  }

  // ----- the others catch up, on the wrong message

  /** The leaf's contribution to the first reduction, and to the one 2^31 calls on. */
  ghost function First(t: Tree, request: bool): Tag
    requires Size(t) >= 2
  {
    Tag(Pe(t, Size(t) - 1), Key(request, 0))
  }

  ghost function Late(t: Tree, request: bool): Tag
    requires Size(t) >= 2
  {
    Tag(Pe(t, Size(t) - 1), Key(request, HALF))
  }

  /** One contribution in the place of another. */
  ghost function Swap(m: multiset<Tag>, x: Tag, y: Tag): multiset<Tag> {
    if x in m then m - multiset{x} + multiset{y} else m
  }

  lemma SwapAdd(m: multiset<Tag>, n: multiset<Tag>, x: Tag, y: Tag)
    requires (m + n)[x] <= 1
    ensures Swap(m + n, x, y) == Swap(m, x, y) + Swap(n, x, y)
  {
  }

  /** What the subtree at `c` sends up when the leaf's late message stands in. */
  ghost function MixedBody(w: World, t: Tree, request: bool, c: nat): multiset<Tag>
    requires WorldOk(w) && Size(t) >= 2
  {
    Swap(Body(w, Key(request, 0), c), First(t, request), Late(t, request))
  }

  ghost function MixedBodies(w: World, t: Tree, request: bool, cs: seq<nat>): seq<multiset<Tag>>
    requires WorldOk(w) && Size(t) >= 2
  {
    seq(|cs|, j requires 0 <= j < |cs| => MixedBody(w, t, request, cs[j]))
  }

  ghost function MixedMsg(w: World, t: Tree, request: bool, c: nat): Msg
    requires WorldOk(w) && TreeOk(t) && Size(t) >= 2 && c < Size(t)
  {
    Msg(ParentPe(t, c), Id(Key(request, 0)), MixedBody(w, t, request, c))
  }

  lemma {:induction false} SumMixed(w: World, t: Tree, request: bool, cs: seq<nat>)
    requires WorldOk(w) && Size(t) >= 2 && Sum(Bodies(w, Key(request, 0), cs))[First(t, request)] <= 1
    ensures Sum(MixedBodies(w, t, request, cs)) ==
            Swap(Sum(Bodies(w, Key(request, 0), cs)), First(t, request), Late(t, request))
  {
    hide Body, Swap, First, Late;
    var key, x, y := Key(request, 0), First(t, request), Late(t, request);
    if cs == [] {
      NoSwap(x, y);
    } else {
      var n := |cs| - 1;
      assert Bodies(w, key, cs) == Bodies(w, key, cs[..n]) + [Body(w, key, cs[n])];
      assert MixedBodies(w, t, request, cs) == MixedBodies(w, t, request, cs[..n]) + [MixedBody(w, t, request, cs[n])];
      SumMixed(w, t, request, cs[..n]);
      SwapAdd(Sum(Bodies(w, key, cs[..n])), Body(w, key, cs[n]), x, y);
    }
  }

  lemma NoSwap(x: Tag, y: Tag)
    ensures Swap(multiset{}, x, y) == multiset{}
  {
  }

  lemma SwapOther(z: Tag, x: Tag, y: Tag)
    requires z != x
    ensures Swap(multiset{z}, x, y) == multiset{z}
  {
  }

  lemma BodyOnce(w: World, key: Key, i: nat, x: Tag)
    requires WorldOk(w)
    ensures Body(w, key, i)[x] <= 1
  {
  }

  /** What a position merges is what it should, but for the leaf's contribution. */
  lemma MixedMerge(w: World, t: Tree, request: bool, p: nat, cs: seq<nat>)
    requires Uniform(w, request, t) && TreeOk(t) && p < Size(t) - 1 && Enumerates(t, p, cs)
    ensures multiset{Tag(Pe(t, p), Key(request, 0))} + Sum(MixedBodies(w, t, request, cs)) ==
            MixedBody(w, t, request, p)
  {
    var key, x, y := Key(request, 0), First(t, request), Late(t, request);
    TreeIs(w, request, t, key);
    hide Uniform, T, Body, Swap, Sum, KidSet, Kids, Bodies, MixedBodies;
    MergeAll(w, key, p, cs);
    BodyOnce(w, key, p, x);
    var mine, rest := multiset{Tag(Pe(t, p), key)}, Sum(Bodies(w, key, cs));
    assert rest[x] <= (mine + rest)[x];
    SumMixed(w, t, request, cs);
    OtherPe(t, p, request);
    SwapOther(Tag(Pe(t, p), key), x, y);
    SwapAdd(mine, rest, x, y);
  }

  lemma PeApart(t: Tree, i: nat, j: nat)
    requires TreeOk(t) && i < Size(t) && j < Size(t) && i != j
    ensures Pe(t, i) != Pe(t, j)
  {
    if Pe(t, i) == Pe(t, j) {
      PeInjective(t, i, j);
    }
  }

  lemma OtherPe(t: Tree, p: nat, request: bool)
    requires TreeOk(t) && Size(t) >= 2 && p < Size(t) - 1
    ensures Tag(Pe(t, p), Key(request, 0)) != First(t, request)
  {
    PeApart(t, p, Size(t) - 1);
  }

  lemma LeafBody(w: World, t: Tree, request: bool)
    requires Uniform(w, request, t) && TreeOk(t)
    ensures Body(w, Key(request, 0), Size(t) - 1) == multiset{First(t, request)}
  {
    hide T, Body, Kids, KidSet, ParentPe;
    TreeIs(w, request, t, Key(request, 0));
    LastIsLeaf(t);
    MergeAll(w, Key(request, 0), Size(t) - 1, []);
  }

  lemma SwapOne(x: Tag, y: Tag)
    ensures Swap(multiset{x}, x, y) == multiset{y}
  {
  }

  /** The leaf's late message is the one its parent will take for the first. */
  lemma LateMsg(w: World, t: Tree, request: bool)
    requires Uniform(w, request, t) && TreeOk(t)
    ensures LeafMsg(t, Key(request, HALF)) == MixedMsg(w, t, request, Size(t) - 1)
  {
    hide T, Body, Swap, Id, Slot, ParentPe;
    LeafBody(w, t, request);
    SwapOne(First(t, request), Late(t, request));
    IdsAndSlots(Key(request, 0), Key(request, HALF));
  }

  lemma MixedHasOwn(w: World, t: Tree, request: bool, c: nat)
    requires Uniform(w, request, t) && TreeOk(t) && c < Size(t)
    ensures var x := if c == Size(t) - 1 then Late(t, request) else Tag(Pe(t, c), Key(request, 0));
            x in MixedBody(w, t, request, c)
  {
    TreeIs(w, request, t, Key(request, 0));
    hide Uniform, T, Body;
    OwnTag(w, Node(Key(request, 0), c));
    if c < Size(t) - 1 {
      OtherPe(t, c, request);
    }
  }

  lemma MixedFrom(w: World, t: Tree, request: bool, c: nat, d: nat)
    requires Uniform(w, request, t) && TreeOk(t) && c < Size(t) && d < Size(t)
    requires var x := if c == Size(t) - 1 then Late(t, request) else Tag(Pe(t, c), Key(request, 0));
             x in MixedBody(w, t, request, d)
    ensures c >= d
  {
    var key := Key(request, 0);
    TreeIs(w, request, t, key);
    hide Uniform, T, Body;
    if c == Size(t) - 1 && Late(t, request) in Body(w, key, d) {
      BodyKey(w, key, d, Late(t, request));
    }
    TagFrom(w, Node(key, c), Node(key, d));
  }

  /** Different positions send different messages here too. */
  lemma MixedApart(w: World, t: Tree, request: bool, c: nat, d: nat)
    requires Uniform(w, request, t) && TreeOk(t) && c < Size(t) && d < Size(t)
    requires MixedMsg(w, t, request, c) == MixedMsg(w, t, request, d)
    ensures c == d
  {
    hide Uniform, T, MixedBody, ParentPe, Late;
    MixedHasOwn(w, t, request, c);
    MixedHasOwn(w, t, request, d);
    MixedFrom(w, t, request, c, d);
    MixedFrom(w, t, request, d, c);
  }

  /** The children of position `p`. */
  ghost predicate Enumerates(t: Tree, p: nat, cs: seq<nat>)
    requires TreeOk(t)
  {
    Distinct(cs) && |cs| == Kids(t, p) && forall c :: c in cs <==> c in KidSet(t, p)
  }

  lemma {:induction false} SeqOf(s: set<nat>) returns (q: seq<nat>)
    ensures Distinct(q) && |q| == |s| && forall x :: x in q <==> x in s
    decreases |s|
  {
    if s == {} {
      q := [];
    } else {
      var x :| x in s;
      var r := SeqOf(s - {x});
      q := r + [x];
    }
  }

  lemma KidSeq(t: Tree, p: nat) returns (cs: seq<nat>)
    requires TreeOk(t) && p < Size(t)
    ensures Enumerates(t, p, cs)
  {
    hide KidSet, Kids;
    cs := SeqOf(KidSet(t, p));
    KidCount(t, p);
  }

  /** Positions from `i` on have called and sent; what those below wait for is under
      way. */
  ghost predicate Swept(w: World, s: State, t: Tree, request: bool, i: nat)
    requires WorldOk(w) && TreeOk(t) && Size(t) >= 2
  {
    && OnlyKeys(s, request, HALF + 1) && s.table == map[]
    && (forall c: nat :: c < i && c < Size(t) ==> (Pe(t, c) as int, Key(request, 0)) !in s.started)
    && (forall c: nat :: i <= c < Size(t) && Up(t, c) < i ==> MixedMsg(w, t, request, c) in s.net)
  }

  /** Position `p` has called and heard from the first `j` of its children `cs`. */
  ghost predicate Catching(w: World, s: State, t: Tree, request: bool, p: nat, cs: seq<nat>, j: nat)
    requires WorldOk(w) && TreeOk(t) && Size(t) >= 2 && p < Size(t) && j <= |cs|
  {
    var key := Key(request, 0);
    var r := FirstRecord(t, p, key).(remotes := MixedBodies(w, t, request, cs[..j]));
    && OnlyKeys(s, request, HALF + 1) && s.table == map[Cell(Pe(t, p), Slot(Id(key))) := r]
    && (forall c: nat :: c < p ==> (Pe(t, c) as int, key) !in s.started)
    && (forall c: nat :: p < c < Size(t) && (Up(t, c) < p || c in cs[j..]) ==> MixedMsg(w, t, request, c) in s.net)
  }

  /** The position has sent; at the root, the handler has been called. */
  ghost predicate Caught(w: World, s: State, t: Tree, request: bool, p: nat)
    requires WorldOk(w) && TreeOk(t) && Size(t) >= 2
  {
    if p > 0 then Swept(w, s, t, request, p) else s.delivered == [MixedResult(w, t, request)]
  }

  ghost function MixedResult(w: World, t: Tree, request: bool): Result
    requires WorldOk(w) && TreeOk(t) && Size(t) >= 2
  {
    Result(Pe(t, 0), Id(Key(request, 0)), MixedBody(w, t, request, 0))
  }

  lemma PosNotStarted(t: Tree, s: State, i: nat, key: Key)
    requires TreeOk(t) && Size(t) >= 2 && i < Size(t) - 1
    requires forall p, k :: (p, k) in s.started ==> p == Pe(t, Size(t) - 1)
    ensures (Pe(t, i) as int, key) !in s.started
  {
    PeApart(t, i, Size(t) - 1);
  }

  lemma AheadSwept(w: World, s: State, t: Tree, request: bool)
    requires Uniform(w, request, t) && TreeOk(t) && Ahead(s, t, request, HALF + 1)
    ensures Swept(w, s, t, request, Size(t) - 1)
  {
    hide Uniform, T, MixedMsg, LeafMsg;
    LateMsg(w, t, request);
    forall c: nat | c < Size(t) - 1 ensures (Pe(t, c) as int, Key(request, 0)) !in s.started {
      PosNotStarted(t, s, c, Key(request, 0));
    }
  }

  /** What the record of `p` sends once all its children have been heard. */
  lemma SendsMixed(w: World, s: State, t: Tree, request: bool, p: nat, cs: seq<nat>)
    requires Uniform(w, request, t) && TreeOk(t) && p < Size(t) - 1 && Enumerates(t, p, cs)
    requires var key := Key(request, 0);
             s.table == map[Cell(Pe(t, p), Slot(Id(key))) :=
                              FirstRecord(t, p, key).(remotes := MixedBodies(w, t, request, cs))]
    ensures var s' := SendUp(s, Cell(Pe(t, p), Slot(Id(Key(request, 0)))));
            if p > 0 then s' == s.(table := map[], net := s.net + multiset{MixedMsg(w, t, request, p)})
            else s'.delivered == s.delivered + [MixedResult(w, t, request)]
  {
    var key := Key(request, 0);
    var cell := Cell(Pe(t, p), Slot(Id(key)));
    MixedMerge(w, t, request, p, cs);
    UpBelow(t, p);
    hide Uniform, T, Kids, KidSet, MixedBody, Sum, Id, Slot;
    assert s.table - {cell} == map[];
  }

  ghost function CellAt(t: Tree, request: bool, p: nat): Cell
    requires p < Size(t)
  {
    Cell(Pe(t, p), Slot(Id(Key(request, 0))))
  }

  /** CmiSendReduce waits for the last child and then sends what it has. */
  lemma SendWhenAll(w: World, s: State, t: Tree, request: bool, p: nat, cs: seq<nat>, j: nat)
    requires Uniform(w, request, t) && TreeOk(t) && p < Size(t) - 1 && Enumerates(t, p, cs) && j <= |cs|
    requires Catching(w, s, t, request, p, cs, j)
    ensures var s' := SendUp(s, CellAt(t, request, p));
            if j < |cs| then s' == s else Caught(w, s', t, request, p)
  {
    hide T, Kids, KidSet, Caught, ParentPe, MixedBody, MixedMsg, Sum, Id, Slot;
    if j == |cs| {
      assert cs[..j] == cs && cs[j..] == [];
      SendsMixed(w, s, t, request, p, cs);
      hide SendUp, FirstRecord, MixedBodies, MixedResult, Enumerates;
      AllHeard(w, s, t, request, p, SendUp(s, CellAt(t, request, p)));
    }
  }

  lemma AllHeard(w: World, s: State, t: Tree, request: bool, p: nat, s': State)
    requires WorldOk(w) && TreeOk(t) && Size(t) >= 2 && p < Size(t) && OnlyKeys(s, request, HALF + 1)
    requires forall c: nat :: c < p ==> (Pe(t, c) as int, Key(request, 0)) !in s.started
    requires forall c: nat :: p < c < Size(t) && Up(t, c) < p ==> MixedMsg(w, t, request, c) in s.net
    requires if p > 0 then s' == s.(table := map[], net := s.net + multiset{MixedMsg(w, t, request, p)})
             else s'.delivered == s.delivered + [MixedResult(w, t, request)]
    ensures Caught(w, s', t, request, p)
  {
    hide MixedMsg, MixedResult;
  }

  lemma CallCatches(w: World, s: State, t: Tree, request: bool, p: nat, cs: seq<nat>)
    requires Uniform(w, request, t) && TreeOk(t) && p < Size(t) - 1 && Enumerates(t, p, cs)
    requires Swept(w, s, t, request, p + 1)
    ensures Catching(w, Called(s, t, p, Key(request, 0)), t, request, p, cs, 0)
  {
    var key := Key(request, 0);
    TreeIs(w, request, t, key);
    hide Uniform, T, Kids, ParentPe, MixedBody, MixedMsg, Id, Slot;
    var s1 := Called(s, t, p, key);
    forall c: nat | c < p ensures (Pe(t, c) as int, key) !in s1.started {
      PeApart(t, c, p);
    }
    assert cs[..0] == [] && cs[0..] == cs && MixedBodies(w, t, request, []) == [];
    forall c: nat | c in cs ensures Up(t, c) == p {
      assert c in KidSet(t, p);
    }
  }

  lemma CatchCall(w: World, s: State, t: Tree, request: bool, p: nat, cs: seq<nat>)
    requires Uniform(w, request, t) && TreeOk(t) && p < Size(t) - 1 && Enumerates(t, p, cs)
    requires Swept(w, s, t, request, p + 1)
    ensures var act := Contribute(Pe(t, p), Key(request, 0));
            && Enabled(w, s, act)
            && if cs == [] then Caught(w, Apply(w, s, act), t, request, p)
               else Catching(w, Apply(w, s, act), t, request, p, cs, 0)
  {
    hide T, Enabled, Apply, Enumerates, Catching, Caught, MixedMsg, SendUp, Called, Id, Slot;
    CallIs(w, s, t, p, Key(request, 0));
    CallCatches(w, s, t, request, p, cs);
    SendWhenAll(w, Called(s, t, p, Key(request, 0)), t, request, p, cs, 0);
  }

  lemma NotThis(t: Tree, p: nat, cs: seq<nat>, j: nat, c: nat)
    requires TreeOk(t) && Enumerates(t, p, cs) && j < |cs| && (Up(t, c) < p || c in cs[j + 1..])
    ensures p < cs[j] < Size(t) && Up(t, cs[j]) == p && c != cs[j] && (c in cs[j + 1..] ==> c in cs[j..])
  {
    hide Kids, Up;
    assert cs[j] in cs && cs[j] in KidSet(t, p);
    UpBelow(t, cs[j]);
    if c in cs[j + 1..] {
      var k :| j + 1 <= k < |cs| && cs[k] == c;
      assert cs[j..][k - j] == c;
    }
  }

  /** The other messages are still under way when one is taken. */
  lemma StillThere(w: World, s: State, t: Tree, request: bool, c: nat, d: nat)
    requires Uniform(w, request, t) && TreeOk(t) && c < Size(t) && d < Size(t) && c != d
    requires MixedMsg(w, t, request, c) in s.net
    ensures MixedMsg(w, t, request, c) in s.net - multiset{MixedMsg(w, t, request, d)}
  {
    hide MixedMsg, T;
    if MixedMsg(w, t, request, c) == MixedMsg(w, t, request, d) {
      MixedApart(w, t, request, c, d);
    }
  }

  lemma KidRecorded(w: World, s: State, t: Tree, request: bool, p: nat, cs: seq<nat>, j: nat)
    requires Uniform(w, request, t) && TreeOk(t) && p < Size(t) && j < |cs|
    requires p < cs[j] < Size(t) && Up(t, cs[j]) == p && Catching(w, s, t, request, p, cs, j)
    ensures var m, s' := MixedMsg(w, t, request, cs[j]), Recorded(w, s, MixedMsg(w, t, request, cs[j]));
            && Cell(m.dest, Slot(m.id)) == CellAt(t, request, p) && !Clash(s, CellAt(t, request, p), m.id)
            && s' == s.(net := s.net - multiset{m}, table := s'.table)
            && var r := FirstRecord(t, p, Key(request, 0)).(remotes := MixedBodies(w, t, request, cs[..j + 1]));
               s'.table == map[CellAt(t, request, p) := r]
  {
    TreeIs(w, request, t, Key(request, 0));
    var m, r := MixedMsg(w, t, request, cs[j]), FirstRecord(t, p, Key(request, 0));
    MixedSnoc(w, t, request, cs, j);
    hide Uniform, T, Kids, ParentPe, MixedBody, MixedBodies, Recorded, Id, Slot;
    KidMsg(w, t, request, p, cs[j]);
    RecordsOne(w, s, r.(remotes := MixedBodies(w, t, request, cs[..j])), m);
  }

  lemma KidMsg(w: World, t: Tree, request: bool, p: nat, c: nat)
    requires WorldOk(w) && TreeOk(t) && Size(t) >= 2 && p < c < Size(t) && Up(t, c) == p
    ensures MixedMsg(w, t, request, c).dest == Pe(t, p)
  {
    hide MixedBody, Up;
  }

  lemma MixedSnoc(w: World, t: Tree, request: bool, cs: seq<nat>, j: nat)
    requires WorldOk(w) && Size(t) >= 2 && j < |cs|
    ensures MixedBodies(w, t, request, cs[..j + 1]) ==
            MixedBodies(w, t, request, cs[..j]) + [MixedBody(w, t, request, cs[j])]
  {
    hide MixedBody;
  }

  lemma RecordsOne(w: World, s: State, r: Record, m: Msg)
    requires WorldOk(w) && s.table == map[Cell(m.dest, Slot(m.id)) := r] && r.id == m.id
    ensures !Clash(s, Cell(m.dest, Slot(m.id)), m.id)
    ensures Recorded(w, s, m) ==
            s.(net := s.net - multiset{m},
               table := map[Cell(m.dest, Slot(m.id)) := r.(remotes := r.remotes + [m.body])])
  {
    hide Slot;
  }

  lemma KidArrives(w: World, s: State, t: Tree, request: bool, p: nat, cs: seq<nat>, j: nat)
    requires Uniform(w, request, t) && TreeOk(t) && p < Size(t) && Enumerates(t, p, cs) && j < |cs|
    requires p < cs[j] < Size(t) && Up(t, cs[j]) == p && Catching(w, s, t, request, p, cs, j)
    ensures Catching(w, Recorded(w, s, MixedMsg(w, t, request, cs[j])), t, request, p, cs, j + 1)
  {
    KidRecorded(w, s, t, request, p, cs, j);
    hide T, Kids, Recorded, MixedMsg, Enumerates, FirstRecord, MixedBodies, Id, Slot, Up;
    var s' := Recorded(w, s, MixedMsg(w, t, request, cs[j]));
    forall c: nat | p < c < Size(t) && (Up(t, c) < p || c in cs[j + 1..]) ensures MixedMsg(w, t, request, c) in s'.net {
      NotThis(t, p, cs, j, c);
      StillThere(w, s, t, request, c, cs[j]);
    }
  }

  lemma CatchArrive(w: World, s: State, t: Tree, request: bool, p: nat, cs: seq<nat>, j: nat) returns (m: Msg)
    requires Uniform(w, request, t) && TreeOk(t) && p < Size(t) - 1 && Enumerates(t, p, cs) && j < |cs|
    requires Catching(w, s, t, request, p, cs, j)
    ensures Enabled(w, s, Arrive(m))
    ensures var s' := Apply(w, s, Arrive(m));
            if j + 1 < |cs| then Catching(w, s', t, request, p, cs, j + 1) else Caught(w, s', t, request, p)
  {
    KidThere(w, s, t, request, p, cs, j);
    m := MixedMsg(w, t, request, cs[j]);
    KidRecorded(w, s, t, request, p, cs, j);
    KidArrives(w, s, t, request, p, cs, j);
    SendWhenAll(w, Recorded(w, s, m), t, request, p, cs, j + 1);
    hide T, Caught, Catching, SendUp, MixedMsg, Enumerates, Opened, CellAt, Up;
    ArriveGoes(w, s, m);
  }

  lemma KidThere(w: World, s: State, t: Tree, request: bool, p: nat, cs: seq<nat>, j: nat)
    requires Uniform(w, request, t) && TreeOk(t) && p < Size(t) && Enumerates(t, p, cs) && j < |cs|
    requires Catching(w, s, t, request, p, cs, j)
    ensures p < cs[j] < Size(t) && Up(t, cs[j]) == p && MixedMsg(w, t, request, cs[j]) in s.net && !s.stopped
  {
    hide T, Kids, Up, MixedMsg, FirstRecord, MixedBodies, Id, Slot;
    assert cs[j] in cs && cs[j] in KidSet(t, p);
    UpBelow(t, cs[j]);
    assert cs[j..][0] == cs[j];
  }

  lemma ArriveGoes(w: World, s: State, m: Msg)
    requires WorldOk(w) && !s.stopped && m in s.net && !Clash(s, Cell(m.dest, Slot(m.id)), m.id)
    ensures Enabled(w, s, Arrive(m))
    ensures Apply(w, s, Arrive(m)) == SendUp(Recorded(w, s, m), Cell(m.dest, Slot(m.id)))
  {
    hide Opened, SendUp, Id, Slot;
  }

  lemma {:induction false} CatchKids(w: World, acts: seq<Action>, t: Tree, request: bool,
                                     p: nat, cs: seq<nat>, j: nat, bound: nat)
    returns (more: seq<Action>)
    requires Uniform(w, request, t) && TreeOk(t) && p < Size(t) - 1 && Enumerates(t, p, cs) && j < |cs|
    requires NearRun(w, acts, bound) && Catching(w, After(w, acts), t, request, p, cs, j)
    ensures NearRun(w, more, bound) && Caught(w, After(w, more), t, request, p)
    decreases |cs| - j
  {
    hide T, Enabled, Apply, Near, NearRun, Catching, Caught, Enumerates;
    LegalRun(w, acts, bound);
    var m := CatchArrive(w, After(w, acts), t, request, p, cs, j);
    ArriveNear(After(w, acts), m, bound);
    Snoc(w, acts, Arrive(m), bound);
    more := acts + [Arrive(m)];
    if j + 1 < |cs| {
      LegalRun(w, more, bound);
      more := CatchKids(w, more, t, request, p, cs, j + 1, bound);
    }
  }

  /** The positions below `i` call in turn, from the last, and hear their children. */
  lemma {:induction false} CatchUp(w: World, acts: seq<Action>, t: Tree, request: bool, i: nat, bound: nat)
    returns (more: seq<Action>)
    requires Uniform(w, request, t) && TreeOk(t) && 0 < i < Size(t) && bound > HALF
    requires NearRun(w, acts, bound) && Swept(w, After(w, acts), t, request, i)
    ensures NearRun(w, more, bound) && After(w, more).delivered == [MixedResult(w, t, request)]
    decreases i
  {
    hide T, Enabled, Apply, Near, NearRun, Catching, Swept, Enumerates, MixedResult;
    var p := i - 1;
    var cs := KidSeq(t, p);
    LegalRun(w, acts, bound);
    CatchCall(w, After(w, acts), t, request, p, cs);
    SweptNear(w, After(w, acts), t, request, i, p, bound);
    Snoc(w, acts, Contribute(Pe(t, p), Key(request, 0)), bound);
    more := acts + [Contribute(Pe(t, p), Key(request, 0))];
    LegalRun(w, more, bound);
    if cs != [] {
      more := CatchKids(w, more, t, request, p, cs, 0, bound);
      LegalRun(w, more, bound);
    }
    if p > 0 {
      more := CatchUp(w, more, t, request, p, bound);
    }
  }

  lemma SweptNear(w: World, s: State, t: Tree, request: bool, i: nat, p: nat, bound: nat)
    requires WorldOk(w) && TreeOk(t) && Size(t) >= 2 && p < Size(t) && Swept(w, s, t, request, i) && bound > HALF
    ensures Near(s, Contribute(Pe(t, p), Key(request, 0)), bound)
  {
    hide Near, OnlyKeys, MixedMsg;
    CallNear(s, request, HALF + 1, Pe(t, p), 0, bound);
  }

  lemma LeafAhead(w: World, t: Tree, request: bool, n: nat, bound: nat)
    requires Uniform(w, request, t) && TreeOk(t) && n == HALF + 1 <= bound
    ensures var acts := Calls(Pe(t, Size(t) - 1), request, n);
            NearRun(w, acts, bound) && Swept(w, After(w, acts), t, request, Size(t) - 1)
  {
    hide T, NearRun, Legal, After, Ahead, Swept, Calls;
    RunAhead(w, t, request, n, bound);
    LegalRun(w, Calls(Pe(t, Size(t) - 1), request, n), bound);
    AheadSwept(w, After(w, Calls(Pe(t, Size(t) - 1), request, n)), t, request);
  }

  /** At 2^31 calls the ids repeat. The leaf has made 2^31 + 1 calls when the other
      PEs make their first; its parent takes the message of its last call for that of
      its first, and the root handler gets a merge of two reductions. */
  lemma MixedUp(w: World, t: Tree, request: bool, bound: nat) returns (acts: seq<Action>)
    requires Uniform(w, request, t) && bound > HALF
    ensures TreeOk(t) && NearRun(w, acts, bound) && After(w, acts).delivered == [MixedResult(w, t, request)]
  {
    TreeIs(w, request, t, Key(request, 0));
    hide Uniform, T, NearRun, Legal, After, Swept, MixedResult, Calls;
    var n := HALF + 1;
    LeafAhead(w, t, request, n, bound);
    acts := CatchUp(w, Calls(Pe(t, Size(t) - 1), request, n), t, request, Size(t) - 1, bound);
    LegalRun(w, acts, bound);
  }

  /** The mixed result: everyone's first contribution, but the leaf's of 2^31 calls
      on in the place of its first. */
  lemma MixedHas(w: World, t: Tree, request: bool)
    requires Uniform(w, request, t)
    ensures TreeOk(t) && First(t, request) in Everyone(w, Key(request, 0))
    ensures MixedResult(w, t, request).body ==
            Everyone(w, Key(request, 0)) - multiset{First(t, request)} + multiset{Late(t, request)}
    ensures Tag(Pe(t, 0), Key(request, 0)) in MixedResult(w, t, request).body
  {
    var key := Key(request, 0);
    TreeIs(w, request, t, key);
    RootBody(w, key);
    assert First(t, request) in Everyone(w, key) && Tag(Pe(t, 0), key) in Everyone(w, key);
    OtherPe(t, 0, request);
  }

  // ----- the slots run out

  lemma NoMultiple16(d: int)
    requires d % 16 == 0 && -16 < d < 16
    ensures d == 0
  {
  }

  lemma NearSlotsDiffer(j: Key, k: Key)
    requires j.n < k.n + WINDOW && k.n < j.n + WINDOW
    ensures !ShareSlot(j, k)
  {
    if ShareSlot(j, k) {
      NoMultiple16(j.n - k.n);
    }
  }

  /** The root waits for its children. */
  lemma RootCalls(w: World, s: State, t: Tree, key: Key)
    requires Uniform(w, key.request, t) && !s.stopped && (Pe(t, 0) as int, key) !in s.started
    requires Cell(Pe(t, 0), Slot(Id(key))) !in s.table
    ensures TreeOk(t) && Enabled(w, s, Contribute(Pe(t, 0), key))
    ensures Apply(w, s, Contribute(Pe(t, 0), key)) == Called(s, t, 0, key)
  {
    hide Id, Slot, Apply, Enabled, Kids, ParentPe;
    CallIs(w, s, t, 0, key);
    RootHasKids(t);
  }

  ghost predicate HasRecord(s: State, t: Tree, key: Key)
    requires Size(t) >= 2
  {
    var cell := Cell(Pe(t, 0), Slot(Id(key))); cell in s.table && s.table[cell].id == Id(key)
  }

  /** The root has called `n` times with no answer: each call has its slot. */
  ghost predicate Filled(s: State, t: Tree, request: bool, n: nat)
    requires Size(t) >= 2
  {
    && OnlyKeys(s, request, n)
    && (forall cell :: cell in s.table ==> exists j: nat :: j < n && cell.slot == Slot(Id(Key(request, j))))
    && (forall j: nat :: j < n ==> HasRecord(s, t, Key(request, j)))
  }

  lemma SlotsApart(request: bool, j: nat, n: nat)
    requires j < n < WINDOW
    ensures Slot(Id(Key(request, j))) != Slot(Id(Key(request, n)))
  {
    hide Id, Slot;
    IdsAndSlots(Key(request, j), Key(request, n));
    NearSlotsDiffer(Key(request, j), Key(request, n));
  }

  lemma FilledStep(w: World, s: State, t: Tree, request: bool, n: nat)
    requires Uniform(w, request, t) && Filled(s, t, request, n) && n < WINDOW
    ensures var act := Contribute(Pe(t, 0), Key(request, n));
            Enabled(w, s, act) && Filled(Apply(w, s, act), t, request, n + 1)
  {
    hide T, Enabled, Apply, Kids, ParentPe, Id, Slot;
    var key := Key(request, n);
    forall j: nat | j < n ensures Slot(Id(Key(request, j))) != Slot(Id(key)) {
      SlotsApart(request, j, n);
    }
    RootCalls(w, s, t, key);
    var s' := Called(s, t, 0, key);
    forall j: nat | j < n + 1 ensures HasRecord(s', t, Key(request, j)) {
      assert j < n ==> HasRecord(s, t, Key(request, j));
    }
  }

  lemma {:induction false} SlotsFill(w: World, t: Tree, request: bool, n: nat, bound: nat)
    requires Uniform(w, request, t) && n <= WINDOW && n <= bound
    ensures var acts := Calls(Pe(t, 0), request, n);
            NearRun(w, acts, bound) && Filled(After(w, acts), t, request, n)
  {
    hide Uniform, T, Size, Near, Enabled, Apply, NearRun, Filled;
    TreeIs(w, request, t, Key(request, 0));
    if n == 0 {
      EmptyRun(w, bound);
      NoneFilled(t, request);
    } else {
      var acts, act := Calls(Pe(t, 0), request, n - 1), Contribute(Pe(t, 0), Key(request, n - 1));
      SlotsFill(w, t, request, n - 1, bound);
      LegalRun(w, acts, bound);
      FilledStep(w, After(w, acts), t, request, n - 1);
      FilledNear(After(w, acts), t, request, n - 1, bound);
      Snoc(w, acts, act, bound);
    }
  }

  lemma NoneFilled(t: Tree, request: bool)
    requires Size(t) >= 2
    ensures Filled(FRESH, t, request, 0)
  {
  }

  lemma FilledNear(s: State, t: Tree, request: bool, n: nat, bound: nat)
    requires Size(t) >= 2 && Filled(s, t, request, n) && n < bound
    ensures Near(s, Contribute(Pe(t, 0), Key(request, n)), bound)
  {
    hide Near, OnlyKeys, Id, Slot;
    CallNear(s, request, n, Pe(t, 0), n, bound);
  }

  /** With 16 calls open the next one finds its slot taken. */
  lemma FullStops(w: World, s: State, t: Tree, request: bool)
    requires Uniform(w, request, t) && Filled(s, t, request, WINDOW)
    ensures var act := Contribute(Pe(t, 0), Key(request, WINDOW)); Enabled(w, s, act) && Apply(w, s, act).stopped
  {
    hide Uniform, T, Size, Enabled, Apply, Filled, Clash, Member, Id, Slot;
    var first, key := Key(request, 0), Key(request, WINDOW);
    TreeIs(w, request, t, key);
    IdsAndSlots(first, key);
    FilledHas(s, t, request, WINDOW);
    PosIs(t, 0);
    RecordClashes(s, t, first, key);
    ClashStops(w, s, Pe(t, 0), key);
  }

  lemma RecordClashes(s: State, t: Tree, first: Key, key: Key)
    requires Size(t) >= 2 && HasRecord(s, t, first) && Slot(Id(first)) == Slot(Id(key)) && Id(first) != Id(key)
    ensures Clash(s, Cell(Pe(t, 0), Slot(Id(key))), Id(key))
  {
    hide Id, Slot;
  }

  lemma FilledHas(s: State, t: Tree, request: bool, n: nat)
    requires Size(t) >= 2 && Filled(s, t, request, n) && n > 0
    ensures HasRecord(s, t, Key(request, 0)) && !s.stopped && (Pe(t, 0) as int, Key(request, n)) !in s.started
  {
    hide HasRecord, Id, Slot;
  }

  lemma ClashStops(w: World, s: State, pe: int, key: Key)
    requires WorldOk(w) && !s.stopped && (pe, key) !in s.started && Member(T(w, key), pe)
    requires Clash(s, Cell(pe, Slot(Id(key))), Id(key))
    ensures Enabled(w, s, Contribute(pe, key)) && Apply(w, s, Contribute(pe, key)).stopped
  {
    hide Id, Slot, SendUp, Opened, Kids, ParentPe;
  }

  /** The 17th call of the root. */
  lemma SeventeenthCall(w: World, t: Tree, request: bool, bound: nat) returns (acts: seq<Action>)
    requires Uniform(w, request, t) && bound > WINDOW
    ensures NearRun(w, acts, bound) && After(w, acts).stopped
  {
    TreeIs(w, request, t, Key(request, 0));
    hide Uniform, T, Near, Enabled, Apply, NearRun, Calls, After, Legal, Filled;
    var calls, call := Calls(Pe(t, 0), request, WINDOW), Contribute(Pe(t, 0), Key(request, WINDOW));
    SlotsFill(w, t, request, WINDOW, bound);
    LegalRun(w, calls, bound);
    FullStops(w, After(w, calls), t, request);
    FilledNear(After(w, calls), t, request, WINDOW, bound);
    Snoc(w, calls, call, bound);
    acts := calls + [call];
  }
}
