/** How far apart the open reductions of a counter may be: below 2^31 calls every
    result is exact, below 16 calls the program never stops on a taken slot, and
    neither bound can be raised. */
module ReductionLimits {
  import opened SpanTree
  import opened Reduction
  import opened ReductionSafety
  import opened ReductionOverrun

  // ----- what the bounds give

  lemma NearIdsDiffer(j: Key, k: Key)
    requires Id(j) == Id(k) && j.n < k.n + HALF && k.n < j.n + HALF
    ensures j == k
  {
    hide Id, Slot;
    IdsAndSlots(j, k);
    NoMultiple(j.n - k.n);
  }

  lemma NoMultiple(d: int)
    requires d % 0x8000_0000 == 0 && -0x8000_0000 < d < 0x8000_0000
    ensures d == 0
  {
  }

  lemma NearFree(s: State, act: Action)
    requires Near(s, act, HALF)
    ensures IdFree(s, act)
  {
    hide Open, Id;
    if act.Contribute? {
      forall k | Open(s, k) && Id(k) == Id(act.key) ensures k == act.key {
        IdsAndSlots(k, act.key);
        NearIdsDiffer(k, act.key);
      }
    }
  }

  lemma NearLess(s: State, act: Action, bound: nat, more: nat)
    requires Near(s, act, bound) && bound <= more
    ensures Near(s, act, more)
  {
    hide Open;
  }

  /** A sufficient condition in call counts: no PE starts a reduction 2^31 calls or
      more from an open one of its counter. */
  lemma {:induction false} NearRunFree(w: World, acts: seq<Action>, bound: nat)
    requires NearRun(w, acts, bound) && bound <= HALF
    ensures IdsFree(w, acts)
    decreases |acts|
  {
    hide Near, IdFree, Enabled, Apply;
    if acts != [] {
      var n := |acts| - 1;
      NearRunFree(w, acts[..n], bound);
      NearLess(After(w, acts[..n]), acts[n], bound, HALF);
      NearFree(After(w, acts[..n]), acts[n]);
    }
  }

  lemma StartedAfter(w: World, s: State, act: Action, p: int, k: Key)
    requires Enabled(w, s, act) && (p, k) in Apply(w, s, act).started
    ensures (p, k) in s.started || act == Contribute(p, k)
  {
    hide T, Sum, Opened, Kids, ParentPe, Id, Slot;
  }

  lemma {:induction false} StartedCalls(w: World, acts: seq<Action>, p: int, k: Key)
    requires Legal(w, acts) && (p, k) in After(w, acts).started
    ensures Contribute(p, k) in acts
    decreases |acts|
  {
    hide Enabled, Apply;
    if acts != [] {
      var n := |acts| - 1;
      StartedAfter(w, After(w, acts[..n]), acts[n], p, k);
      if acts[n] != Contribute(p, k) {
        StartedCalls(w, acts[..n], p, k);
      }
    }
  }

  /** One that a program can see to by itself: each counter is used for at most
      `bound` reductions. */
  lemma {:induction false} FewCalls(w: World, acts: seq<Action>, bound: nat)
    requires Legal(w, acts) && forall j :: 0 <= j < |acts| && acts[j].Contribute? ==> acts[j].key.n < bound
    ensures NearRun(w, acts, bound)
    decreases |acts|
  {
    hide Enabled, Apply, Complete, Running;
    if acts != [] {
      var n := |acts| - 1;
      FewCalls(w, acts[..n], bound);
      var s := After(w, acts[..n]);
      forall k | Open(s, k) ensures k.n < bound {
        var p :| (p, k) in s.started;
        StartedCalls(w, acts[..n], p, k);
      }
      assert Near(s, acts[n], bound);
    }
  }

  /** Each result is that of one reduction, a different one each time, with the
      contribution of every PE of it, once, and nothing else. */
  ghost predicate ExactFor(w: World, acts: seq<Action>, keys: seq<Key>)
    requires WorldOk(w) && Legal(w, acts)
  {
    var d := After(w, acts).delivered;
    && |keys| == |d|
    && (forall j, k :: 0 <= j < k < |keys| ==> keys[j] != keys[k])
    && (forall j :: 0 <= j < |d| ==>
          Size(T(w, keys[j])) > 0 && d[j] == Result(Pe(T(w, keys[j]), 0), Id(keys[j]), Everyone(w, keys[j])))
  }

  ghost predicate AlwaysExact(w: World, bound: nat)
    requires WorldOk(w)
  {
    forall acts :: NearRun(w, acts, bound) ==> exists keys :: ExactFor(w, acts, keys)
  }

  ghost predicate NeverStops(w: World, bound: nat) {
    forall acts :: NearRun(w, acts, bound) ==> !After(w, acts).stopped
  }

  /** Up to 2^31 calls apart every run of every machine is exact. */
  lemma ExactBelow(w: World, bound: nat)
    requires WorldOk(w) && bound <= HALF
    ensures AlwaysExact(w, bound)
  {
    hide T, Everyone, Enabled, Apply, Near, IdFree;
    forall acts | NearRun(w, acts, bound) ensures exists keys :: ExactFor(w, acts, keys) {
      NearRunFree(w, acts, bound);
      var keys := Exact(w, acts);
      assert ExactFor(w, acts, keys);
    }
  }

  // ----- fewer than 16 calls apart

  ghost predicate Close(s: State, a: Ghost) {
    forall j, k :: Live(s, a, j) && Live(s, a, k) && j.request == k.request ==> j.n < k.n + WINDOW
  }

  lemma CallGoesOn(w: World, s: State, a: Ghost, pe: int, key: Key)
    requires Inv(w, s, a) && Enabled(w, s, Contribute(pe, key)) && Near(s, Contribute(pe, key), WINDOW)
    ensures !Apply(w, s, Contribute(pe, key)).stopped
  {
    hide Inv0, Enabled, Apply, Live, Open, ShareSlot;
    if Apply(w, s, Contribute(pe, key)).stopped {
      var k := ContributeStops(w, s, a, pe, key);
      LiveIsOpen(w, s, a, k);
      SharesCounter(k, key);
      NearSlotsDiffer(k, key);
    }
  }

  lemma SharesCounter(j: Key, k: Key)
    requires ShareSlot(j, k)
    ensures j.request == k.request
  {
  }

  lemma ArrivalGoesOn(w: World, s: State, a: Ghost, m: Msg)
    requires Inv(w, s, a) && Enabled(w, s, Arrive(m)) && Close(s, a)
    ensures !Apply(w, s, Arrive(m)).stopped
  {
    hide Inv0, Enabled, Apply, Live, ShareSlot;
    if Apply(w, s, Arrive(m)).stopped {
      var j, k := ArriveStops(w, s, a, m);
      SharesCounter(k, j);
      NearSlotsDiffer(k, j);
    }
  }

  lemma CloseAfter(w: World, s: State, a: Ghost, key: Key, s': State, a': Ghost, pe: int)
    requires Inv(w, s, a) && Close(s, a) && Near(s, Contribute(pe, key), WINDOW)
    requires forall k :: Live(s', a', k) ==> Live(s, a, k) || k == key
    ensures Close(s', a')
  {
    hide Inv0, Live, Open;
    forall k | Live(s, a, k) ensures Open(s, k) {
      LiveIsOpen(w, s, a, k);
    }
  }

  lemma CloseStays(s: State, a: Ghost, s': State, a': Ghost)
    requires Close(s, a) && NoneNew(s, a, s', a')
    ensures Close(s', a')
  {
    hide Live;
  }

  lemma {:induction false} CloseRun(w: World, acts: seq<Action>) returns (a: Ghost)
    requires WorldOk(w) && NearRun(w, acts, WINDOW)
    ensures !After(w, acts).stopped && Inv(w, After(w, acts), a) && Close(After(w, acts), a)
    decreases |acts|
  {
    hide Inv, Enabled, Apply, Near, IdFree, Close, Live, NoneNew;
    if acts == [] {
      Start(w);
      a := NOTHING;
      NothingLive();
    } else {
      var n := |acts| - 1;
      var s, act := After(w, acts[..n]), acts[n];
      var b := CloseRun(w, acts[..n]);
      match act {
        case Contribute(pe, key) =>
          CallGoesOn(w, s, b, pe, key);
          NearLess(s, act, WINDOW, HALF);
          NearFree(s, act);
          a := ContributeStep(w, s, b, pe, key);
          CloseAfter(w, s, b, key, After(w, acts), a, pe);
        case Arrive(m) =>
          ArrivalGoesOn(w, s, b, m);
          a := ArriveStep(w, s, b, m);
          CloseStays(s, b, After(w, acts), a);
        case Return(cell) =>
          ReturnGoesOn(w, s, cell);
          a := ReturnStep(w, s, b, cell);
          CloseStays(s, b, After(w, acts), a);
      }
    }
  }

  lemma NothingLive()
    ensures Close(FRESH, NOTHING)
  {
  }

  /** Up to 16 calls apart no run of any machine stops. */
  lemma RunsBelow(w: World, bound: nat)
    requires WorldOk(w) && bound <= WINDOW
    ensures NeverStops(w, bound)
  {
    hide Enabled, Apply, Near;
    forall acts | NearRun(w, acts, bound) ensures !After(w, acts).stopped {
      NearRunLess(w, acts, bound, WINDOW);
      var a := CloseRun(w, acts);
    }
  }

  lemma {:induction false} NearRunLess(w: World, acts: seq<Action>, bound: nat, more: nat)
    requires NearRun(w, acts, bound) && bound <= more
    ensures NearRun(w, acts, more)
    decreases |acts|
  {
    hide Near, Enabled, Apply;
    if acts != [] {
      var n := |acts| - 1;
      NearRunLess(w, acts[..n], bound, more);
      NearLess(After(w, acts[..n]), acts[n], bound, more);
    }
  }

  // ----- neither bound can be raised

  lemma EveryoneKey(w: World, key: Key, t: Tag)
    requires WorldOk(w) && t in Everyone(w, key)
    ensures t.key == key
  {
  }

  lemma TwoKeys(w: World, body: multiset<Tag>, x: Tag, y: Tag, key: Key)
    requires WorldOk(w) && x in body && y in body && x.key != y.key
    ensures body != Everyone(w, key)
  {
    hide Everyone;
    if body == Everyone(w, key) {
      EveryoneKey(w, key, x);
      EveryoneKey(w, key, y);
    }
  }

  lemma MixedNotExact(w: World, t: Tree, request: bool, acts: seq<Action>, keys: seq<Key>)
    requires Uniform(w, request, t) && Legal(w, acts) && TreeOk(t)
    requires After(w, acts).delivered == [MixedResult(w, t, request)]
    ensures !ExactFor(w, acts, keys)
  {
    MixedHas(w, t, request);
    var body := MixedResult(w, t, request).body;
    assert Late(t, request) in body;
    hide Uniform, T, Everyone, Id, MixedResult, After, Legal;
    if |keys| == 1 {
      TwoKeys(w, body, Tag(Pe(t, 0), Key(request, 0)), Late(t, request), keys[0]);
    }
  }

  /** The exact condition: a bound on how far apart a counter's open reductions may
      be makes every run exact if and only if it is at most 2^31. */
  lemma ExactIff(w: World, t: Tree, request: bool, bound: nat)
    requires Uniform(w, request, t)
    ensures AlwaysExact(w, bound) <==> bound <= HALF
  {
    hide NearRun, ExactFor, T, MixedResult;
    if bound <= HALF {
      ExactBelow(w, bound);
    } else {
      var acts := MixedUp(w, t, request, bound);
      LegalRun(w, acts, bound);
      forall keys ensures !ExactFor(w, acts, keys) {
        MixedNotExact(w, t, request, acts, keys);
      }
    }
  }

  /** The same for the slots: no run stops if and only if the bound is at most 16. */
  lemma StopIff(w: World, t: Tree, request: bool, bound: nat)
    requires Uniform(w, request, t)
    ensures NeverStops(w, bound) <==> bound <= WINDOW
  {
    hide NearRun, T;
    if bound <= WINDOW {
      RunsBelow(w, bound);
    } else {
      var acts := SeventeenthCall(w, t, request, bound);
    }
  }

  /** So for every machine of two or more PEs, whatever its lists: 2^31 and 16 are the
      limits. */
  lemma MachineLimits(w: World, bound: nat)
    requires WorldOk(w) && w.nodes * w.size >= 2
    ensures AlwaysExact(w, bound) <==> bound <= HALF
    ensures NeverStops(w, bound) <==> bound <= WINDOW
  {
    hide NearRun, AlwaysExact, NeverStops;
    UniformMachines(w, []);
    ExactIff(w, Span(w.nodes, w.size), false, bound);
    StopIff(w, Span(w.nodes, w.size), false, bound);
  }
}
