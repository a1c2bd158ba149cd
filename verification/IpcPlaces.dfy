/** Where the blocks of one segment of the shared-memory pool are.

    A block is on one of the segment's lists, on a sender's private free list, on
    a list a receiver has taken and is still walking, in an inbox, in the hand of
    one PE, or with the receiving process. The first four kinds of place keep
    their blocks in order. */
module IpcPlaces {
  import opened Collections

  /** A PE of another process (by its index among the host's PEs), or a rank of
      the process that owns the segment. */
  datatype Agent = Sender(host: nat) | Receiver(rank: nat) {
    function Index(): nat {
      match this
      case Sender(i) => i
      case Receiver(r) => r
    }
  }

  /** The lists of `ipc_shared_`. */
  datatype ListId = Rq(rank: nat) | NodeRq | Ret(owner: nat, bin: nat)

  datatype Place =
    | OnList(list: ListId)
    | Cached(host: nat, bin: nat)
    | WalkRq(rank: nat)
    | WalkNode(rank: nat)
    | InboxRq(rank: nat)
    | InboxNode(rank: nat)
    | Hand(agent: Agent)
    | Held

  predicate Ordered(p: Place) {
    !p.Hand? && !p.Held?
  }

  /** `place` names the one place of every block; `at` lists each ordered place,
      newest block first. */
  datatype View = View(place: map<nat, Place>, at: map<Place, seq<nat>>) {

    function At(p: Place): seq<nat> {
      if p in at then at[p] else []
    }

    ghost predicate Listed(p: Place) {
      && Distinct(At(p))
      && (forall k :: 0 <= k < |At(p)| ==> At(p)[k] in place && place[At(p)[k]] == p)
    }

    /** The two descriptions agree, so no block is in two places or lost. */
    ghost predicate Consistent() {
      && (forall p :: Listed(p))
      && (forall p :: !Ordered(p) ==> At(p) == [])
      && (forall o :: o in place && Ordered(place[o]) ==> o in At(place[o]))
    }

    /** A loose block (or a new one) goes to an unordered place. */
    function Put(o: nat, q: Place): (w: View)
      ensures forall r :: w.At(r) == At(r)
    {
      View(place[o := q], at)
    }

    /** A loose block becomes the newest of an ordered place. */
    function Push(o: nat, p: Place): (w: View)
      ensures forall r :: w.At(r) == if r == p then [o] + At(p) else At(r)
    {
      View(place[o := p], at[p := [o] + At(p)])
    }

    /** The newest block of `p` becomes loose. */
    function PopTop(p: Place, q: Place): (w: View)
      requires At(p) != []
      ensures forall r :: w.At(r) == if r == p then At(p)[1..] else At(r)
    {
      View(place[At(p)[0] := q], at[p := At(p)[1..]])
    }

    /** The oldest block of `p` becomes loose. */
    function PopBack(p: Place, q: Place): (w: View)
      requires At(p) != []
      ensures forall r :: w.At(r) == if r == p then At(p)[..|At(p)| - 1] else At(r)
    {
      View(place[At(p)[|At(p)| - 1] := q], at[p := At(p)[..|At(p)| - 1]])
    }

    /** One exchange hands every block of `p` to the empty place `q`. */
    function MoveAll(p: Place, q: Place): (w: View)
      ensures forall r :: w.At(r) == if r == p then [] else if r == q then At(p) else At(r)
    {
      View(map o | o in place :: if place[o] == p then q else place[o], at[q := At(p)][p := []])
    }

    /** One step of a walk: the newest block of `p` goes behind those of `q`. */
    function Shift(p: Place, q: Place): (w: View)
      requires At(p) != [] && p != q
      ensures forall r :: w.At(r) ==
                          if r == p then At(p)[1..] else if r == q then At(q) + [At(p)[0]] else At(r)
    {
      View(place[At(p)[0] := q], at[p := At(p)[1..]][q := At(q) + [At(p)[0]]])
    }
  }

  lemma PutConsistent(v: View, o: nat, q: Place)
    requires v.Consistent() && !Ordered(q)
    requires o in v.place ==> !Ordered(v.place[o])
    ensures v.Put(o, q).Consistent()
  {
    var w := v.Put(o, q);
    forall p ensures w.Listed(p) {
      assert v.Listed(p);
      assert w.At(p) == v.At(p);
    }
  }

  lemma PushConsistent(v: View, o: nat, p: Place)
    requires v.Consistent() && Ordered(p)
    requires o in v.place && !Ordered(v.place[o])
    ensures v.Push(o, p).Consistent()
  {
    var w := v.Push(o, p);
    forall q ensures w.Listed(q) {
      assert v.Listed(q);
      if q != p {
        assert w.At(q) == v.At(q);
      }
    }
    forall x | x in w.place && Ordered(w.place[x]) ensures x in w.At(w.place[x]) {
      if x == o {
        assert w.At(p)[0] == o;
      } else if v.place[x] == p {
        var k :| 0 <= k < |v.At(p)| && v.At(p)[k] == x;
        assert w.At(p)[k + 1] == x;
      }
    }
  }

  lemma PopTopConsistent(v: View, p: Place, q: Place)
    requires v.Consistent() && Ordered(p) && !Ordered(q) && v.At(p) != []
    ensures v.PopTop(p, q).Consistent()
  {
    var w, o := v.PopTop(p, q), v.At(p)[0];
    assert v.Listed(p);
    forall r ensures w.Listed(r) {
      assert v.Listed(r);
      if r != p {
        assert w.At(r) == v.At(r);
      }
    }
    forall x | x in w.place && Ordered(w.place[x]) ensures x in w.At(w.place[x]) {
      assert x != o && x in v.place && v.place[x] == w.place[x];
      if v.place[x] == p {
        HasTail(v.At(p), x);
      }
    }
  }

  lemma HasTail(s: seq<nat>, x: nat)
    requires x in s && x != s[0]
    ensures x in s[1..]
  {
  }

  lemma PopBackConsistent(v: View, p: Place, q: Place)
    requires v.Consistent() && Ordered(p) && !Ordered(q) && v.At(p) != []
    ensures v.PopBack(p, q).Consistent()
  {
    var w, n := v.PopBack(p, q), |v.At(p)| - 1;
    assert v.Listed(p);
    forall r ensures w.Listed(r) {
      assert v.Listed(r);
      if r != p {
        assert w.At(r) == v.At(r);
      }
    }
    forall x | x in w.place && Ordered(w.place[x]) ensures x in w.At(w.place[x]) {
      if v.place[x] == p {
        var k :| 0 <= k < |v.At(p)| && v.At(p)[k] == x;
        assert w.At(p)[k] == x;
      }
    }
  }

  lemma MoveAllConsistent(v: View, p: Place, q: Place)
    requires v.Consistent() && Ordered(p) && Ordered(q) && p != q && v.At(q) == []
    ensures v.MoveAll(p, q).Consistent()
  {
    var w := v.MoveAll(p, q);
    assert v.Listed(p) && v.Listed(q);
    forall r ensures w.Listed(r) {
      assert v.Listed(r);
      if r != p && r != q {
        assert w.At(r) == v.At(r);
      }
    }
    forall x | x in w.place && Ordered(w.place[x]) ensures x in w.At(w.place[x]) {
      assert v.place[x] != q;
    }
  }

  lemma ShiftListed(v: View, p: Place, q: Place, r: Place)
    requires v.Listed(p) && v.Listed(q) && v.Listed(r) && p != q && v.At(p) != []
    ensures v.Shift(p, q).Listed(r)
  {
    var w, o := v.Shift(p, q), v.At(p)[0];
    assert v.place[o] == p;
    if r == q {
      assert o !in v.At(q);
      assert w.At(r) == v.At(q) + [o];
    } else if r != p {
      assert w.At(r) == v.At(r);
    }
  }

  lemma ShiftConsistent(v: View, p: Place, q: Place)
    requires v.Consistent() && Ordered(p) && Ordered(q) && p != q && v.At(p) != []
    ensures v.Shift(p, q).Consistent()
  {
    var w, o := v.Shift(p, q), v.At(p)[0];
    forall r ensures w.Listed(r) {
      assert v.Listed(p) && v.Listed(q) && v.Listed(r);
      ShiftListed(v, p, q, r);
    }
    forall x | x in w.place && Ordered(w.place[x]) ensures x in w.At(w.place[x]) {
      if x == o {
        assert w.At(q)[|v.At(q)|] == o;
      } else if v.place[x] == p {
        var k :| 0 <= k < |v.At(p)| && v.At(p)[k] == x;
        assert w.At(p)[k - 1] == x;
      } else if v.place[x] == q {
        var k :| 0 <= k < |v.At(q)| && v.At(q)[k] == x;
        assert w.At(q)[k] == x;
      }
    }
  }
}
