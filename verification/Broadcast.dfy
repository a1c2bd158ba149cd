/** The broadcast tree of src/collectives.cpp: rooted at the sender's process, with
    copies relayed by the first PE of each process and handed to its peers there. */
module Broadcast {
  import opened Collections
  import opened SpanTree

  /** Where copies of the message go: `nodes` processes of `size` PEs, the sender's
      process, and the user's handler. */
  datatype Cast = Cast(nodes: nat, size: nat, root: nat, user: nat)

  /** Cmi_bcastHandler */
  const RELAY: nat := 0

  predicate CastOk(b: Cast) {
    b.size > 0 && b.root < b.nodes && b.user != RELAY
  }

  // ----- one relay step

  /** A process counted from the root, and back. */
  function Rel(b: Cast, node: nat): nat
    requires CastOk(b)
  {
    if node >= b.root then node - b.root else node - b.root + b.nodes
  }

  function NodeAt(b: Cast, rel: nat): nat {
    if rel + b.root >= b.nodes then rel + b.root - b.nodes else rel + b.root
  }

  lemma RelNode(b: Cast, x: nat)
    requires CastOk(b) && x < b.nodes
    ensures Rel(b, x) < b.nodes && NodeAt(b, Rel(b, x)) == x
    ensures NodeAt(b, x) < b.nodes && Rel(b, NodeAt(b, x)) == x
  {
  }

  /** The processes that the one at `node` sends to. */
  ghost function Forward(b: Cast, node: nat): (out: seq<nat>)
    requires CastOk(b) && node < b.nodes
    ensures |out| == Kids4(b.nodes, Rel(b, node))
    ensures forall j :: 0 <= j < |out| ==> out[j] < b.nodes && Rel(b, out[j]) == Rel(b, node) * WIDTH + 1 + j
  {
    var i := Rel(b, node);
    Kids4Range(b.nodes, i, 1);
    seq(Kids4(b.nodes, i), j requires 0 <= j < Kids4(b.nodes, i) => ChildNode(b, i, j))
  }

  ghost function ChildNode(b: Cast, i: nat, j: nat): (node: nat)
    requires CastOk(b) && j < Kids4(b.nodes, i)
    ensures node < b.nodes && Rel(b, node) == i * WIDTH + 1 + j
  {
    Kids4Range(b.nodes, i, i * WIDTH + 1 + j);
    RelNode(b, i * WIDTH + 1 + j);
    NodeAt(b, i * WIDTH + 1 + j)
  }

  lemma NextChild(b: Cast, node: nat, i: nat)
    requires CastOk(b) && node < b.nodes && i < WIDTH
    ensures var childRel := Rel(b, node) * WIDTH + i + 1;
            && (childRel >= b.nodes <==> i >= |Forward(b, node)|)
            && (childRel < b.nodes ==> Forward(b, node)[i] == NodeAt(b, childRel))
  {
    hide Forward;
    var childRel := Rel(b, node) * WIDTH + i + 1;
    Kids4Range(b.nodes, Rel(b, node), childRel);
    if childRel < b.nodes {
      RelNode(b, Forward(b, node)[i]);
    }
  }

  /** CmiSpanTreeForwardToNodes */
  method ForwardToNodes(b: Cast, node: nat) returns (out: seq<nat>)
    requires CastOk(b) && node < b.nodes
    ensures out == Forward(b, node)
  {
    hide Forward, Kids4;
    ghost var all := Forward(b, node);
    var rel := node - b.root;
    if rel < 0 {
      rel := rel + b.nodes;
    }
    out := [];
    var i := 0;
    Kids4Range(b.nodes, rel, 1);
    while i < WIDTH
      invariant 0 <= i <= WIDTH && i == |out| <= |all| && out == all[..i]
    {
      NextChild(b, node, i);
      var childRel := rel * WIDTH + i + 1;
      if childRel >= b.nodes {
        break;
      }
      var childNode := childRel + b.root;
      if childNode >= b.nodes {
        childNode := childNode - b.nodes;
      }
      out := out + [childNode];
      i := i + 1;
    }
  }

  /** The other PEs of a process, from rank `r` on. */
  ghost function PeersFrom(b: Cast, node: nat, rank: nat, r: nat): seq<nat>
    decreases b.size - r
  {
    if r >= b.size then []
    else (if r != rank then [node * b.size + r] else []) + PeersFrom(b, node, rank, r + 1)
  }

  /** CmiBcastSendToPeers */
  method SendToPeers(b: Cast, node: nat, rank: nat) returns (out: seq<nat>)
    requires rank < b.size
    ensures out == PeersFrom(b, node, rank, 0)
  {
    out := [];
    if b.size <= 1 {
      return;
    }
    assert out + PeersFrom(b, node, rank, 0) == PeersFrom(b, node, rank, 0);
    var r := 0;
    while r < b.size
      invariant 0 <= r <= b.size && out + PeersFrom(b, node, rank, r) == PeersFrom(b, node, rank, 0)
    {
      if r != rank {
        assert out + ([node * b.size + r] + PeersFrom(b, node, rank, r + 1))
               == out + [node * b.size + r] + PeersFrom(b, node, rank, r + 1);
        out := out + [node * b.size + r];
      } else {
        assert out + ([] + PeersFrom(b, node, rank, r + 1)) == out + PeersFrom(b, node, rank, r + 1);
      }
      r := r + 1;
    }
    assert out + [] == out;
  }

  // ----- copies and deliveries

  /** handlerId, bcastSwapHandlerId and the destination of a copy under way. */
  datatype Copy = Copy(dest: nat, handler: nat, swap: nat)

  datatype Delivery = Delivery(pe: nat, handler: nat)

  datatype State = State(net: seq<Copy>, log: multiset<Delivery>)

  ghost function Relays(b: Cast, nodes: seq<nat>): seq<Copy> {
    seq(|nodes|, j requires 0 <= j < |nodes| => Copy(nodes[j] * b.size, RELAY, b.user))
  }

  ghost function Direct(b: Cast, pes: seq<nat>): seq<Copy> {
    seq(|pes|, j requires 0 <= j < |pes| => Copy(pes[j], b.user, b.user))
  }

  /** CmiBcastForward on the given PE. */
  ghost function Sends(b: Cast, pe: nat): seq<Copy>
    requires CastOk(b) && pe < b.nodes * b.size
  {
    NodeBelow(b.nodes, b.size, pe);
    Relays(b, Forward(b, NodeOf(b.size, pe))) + Direct(b, PeersFrom(b, NodeOf(b.size, pe), RankOf(b.size, pe), 0))
  }

  /** Some copy under way reaches its PE, which relays it (CmiBcastHandler) or not,
      and runs the handler the copy then names. */
  ghost function Step(b: Cast, s: State, j: nat): State
    requires CastOk(b) && j < |s.net| && s.net[j].dest < b.nodes * b.size
  {
    var c := s.net[j];
    var rest := s.net[..j] + s.net[j + 1..];
    if c.handler == RELAY then State(rest + Sends(b, c.dest), s.log + multiset{Delivery(c.dest, c.swap)})
    else State(rest, s.log + multiset{Delivery(c.dest, c.handler)})
  }

  // ----- what a copy still owes

  ghost function T(b: Cast): (t: Tree)
    requires CastOk(b)
    ensures TreeOk(t) && Size(t) == b.nodes
  {
    Listed(seq(b.nodes, i requires 0 <= i < b.nodes => i))
  }

  /** The PEs of the processes under position `i` of the tree. */
  ghost function PesUnder(b: Cast, i: nat): set<nat>
    requires CastOk(b)
  {
    set p: nat | p < b.nodes * b.size && Under(T(b), i, Rel(b, NodeOf(b.size, p)))
  }

  ghost function Told(b: Cast, pes: set<nat>): multiset<Delivery> {
    multiset(set p | p in pes :: Delivery(p, b.user))
  }

  ghost function Owed(b: Cast, c: Copy): multiset<Delivery>
    requires CastOk(b)
  {
    if c.handler != RELAY then multiset{Delivery(c.dest, c.handler)}
    else Told(b, PesUnder(b, Rel(b, NodeOf(b.size, c.dest))))
  }

  ghost function OwedAll(b: Cast, cs: seq<Copy>): multiset<Delivery>
    requires CastOk(b)
  {
    if cs == [] then multiset{} else OwedAll(b, cs[..|cs| - 1]) + Owed(b, cs[|cs| - 1])
  }

  lemma {:induction false} OwedConcat(b: Cast, cs: seq<Copy>, ds: seq<Copy>)
    requires CastOk(b)
    ensures OwedAll(b, cs + ds) == OwedAll(b, cs) + OwedAll(b, ds)
    decreases |ds|
  {
    hide Owed;
    if ds == [] {
      assert cs + ds == cs;
    } else {
      var n := |ds| - 1;
      OwedConcat(b, cs, ds[..n]);
      assert (cs + ds)[..|cs + ds| - 1] == cs + ds[..n];
    }
  }

  lemma OwedRemove(b: Cast, cs: seq<Copy>, j: nat)
    requires CastOk(b) && j < |cs|
    ensures OwedAll(b, cs) == OwedAll(b, cs[..j] + cs[j + 1..]) + Owed(b, cs[j])
  {
    OwedSingle(b, cs[j]);
    hide OwedAll, Owed;
    assert cs == cs[..j] + ([cs[j]] + cs[j + 1..]);
    OwedConcat(b, cs[..j], [cs[j]] + cs[j + 1..]);
    OwedConcat(b, [cs[j]], cs[j + 1..]);
    OwedConcat(b, cs[..j], cs[j + 1..]);
  }

  lemma OwedSingle(b: Cast, c: Copy)
    requires CastOk(b)
    ensures OwedAll(b, [c]) == Owed(b, c)
  {
    hide Owed;
    assert [c][..0] == [];
  }

  lemma ToldUnion(b: Cast, x: set<nat>, y: set<nat>)
    requires x !! y
    ensures Told(b, x + y) == Told(b, x) + Told(b, y)
  {
    var sx, sy := set p | p in x :: Delivery(p, b.user), set p | p in y :: Delivery(p, b.user);
    assert (set p | p in x + y :: Delivery(p, b.user)) == sx + sy;
    assert sx !! sy;
  }

  /** A process's own PEs. */
  ghost function NodePes(b: Cast, node: nat): set<nat>
    requires CastOk(b)
  {
    set p: nat | p < b.nodes * b.size && NodeOf(b.size, p) == node
  }

  ghost function ManyUnder(b: Cast, cs: seq<nat>): (ps: set<nat>)
    requires CastOk(b)
    ensures forall p :: p in ps <==> exists c :: c in cs && p in PesUnder(b, c)
  {
    if cs == [] then {}
    else
      var n := |cs| - 1;
      assert cs == cs[..n] + [cs[n]];
      ManyUnder(b, cs[..n]) + PesUnder(b, cs[n])
  }

  ghost function Rels(b: Cast, nodes: seq<nat>): seq<nat>
    requires CastOk(b)
  {
    seq(|nodes|, j requires 0 <= j < |nodes| => Rel(b, nodes[j]))
  }

  /** What relayed copies to different children owe together. */
  lemma {:induction false} OwedRelays(b: Cast, i: nat, nodes: seq<nat>)
    requires CastOk(b) && Distinct(Rels(b, nodes)) && forall c :: c in Rels(b, nodes) ==> c in KidSet(T(b), i)
    ensures OwedAll(b, Relays(b, nodes)) == Told(b, ManyUnder(b, Rels(b, nodes)))
    decreases |nodes|
  {
    hide T, Under, KidSet, TreeOk, Told, NodeOf;
    var rels, copies := Rels(b, nodes), Relays(b, nodes);
    if nodes == [] {
      NoneTold(b);
      assert ManyUnder(b, rels) == {};
    } else {
      var n := |nodes| - 1;
      assert Rels(b, nodes[..n]) == rels[..n] && copies[..n] == Relays(b, nodes[..n]);
      assert rels[n] in rels && rels[n] !in rels[..n] && forall c :: c in rels[..n] ==> c in rels;
      OwedRelays(b, i, nodes[..n]);
      FirstPe(b, nodes[n]);
      forall p | p in ManyUnder(b, rels[..n]) && p in PesUnder(b, rels[n]) ensures false {
        var c :| c in rels[..n] && p in PesUnder(b, c);
        UnderOne(T(b), i, c, rels[n], Rel(b, NodeOf(b.size, p)));
      }
      ToldUnion(b, ManyUnder(b, rels[..n]), PesUnder(b, rels[n]));
    }
  }

  lemma NoneTold(b: Cast)
    ensures Told(b, {}) == multiset{}
  {
  }

  lemma FirstPe(b: Cast, node: nat)
    requires CastOk(b)
    ensures NodeOf(b.size, node * b.size) == node && RankOf(b.size, node * b.size) == 0
  {
    PeParts(b.size, node, 0);
  }

  ghost function PeerSet(b: Cast, node: nat, rank: nat, r: nat): set<nat>
    requires CastOk(b)
  {
    set p: nat | p < b.nodes * b.size && NodeOf(b.size, p) == node && r <= RankOf(b.size, p) != rank
  }

  lemma PeerSetStep(b: Cast, node: nat, rank: nat, r: nat)
    requires CastOk(b) && node < b.nodes && r < b.size
    ensures var more := PeerSet(b, node, rank, r + 1);
            && node * b.size + r !in more
            && PeerSet(b, node, rank, r) == if r != rank then {node * b.size + r} + more else more
  {
    var x, more, all := node * b.size + r, PeerSet(b, node, rank, r + 1), PeerSet(b, node, rank, r);
    PeParts(b.size, node, r);
    Apart(b.size, node, b.nodes);
    forall p: nat | p < b.nodes * b.size && NodeOf(b.size, p) == node && RankOf(b.size, p) == r ensures p == x {
      Parts(b.size, p);
    }
    hide NodeOf, RankOf;
    forall p: nat ensures p in all <==> p in more || (p == x && r != rank) {
    }
  }

  lemma PeerSetEmpty(b: Cast, node: nat, rank: nat)
    requires CastOk(b)
    ensures PeerSet(b, node, rank, b.size) == {}
  {
    forall p: nat ensures p !in PeerSet(b, node, rank, b.size) {
      Parts(b.size, p);
    }
  }

  /** The peers of a PE, from rank `r` on. */
  lemma {:induction false} OwedPeers(b: Cast, node: nat, rank: nat, r: nat)
    requires CastOk(b) && node < b.nodes && rank < b.size && r <= b.size
    ensures OwedAll(b, Direct(b, PeersFrom(b, node, rank, r))) == Told(b, PeerSet(b, node, rank, r))
    decreases b.size - r
  {
    hide Told, PeerSet, Owed;
    if r == b.size {
      NoneTold(b);
      PeerSetEmpty(b, node, rank);
    } else {
      OwedPeers(b, node, rank, r + 1);
      PeerSetStep(b, node, rank, r);
      var x, more := node * b.size + r, PeerSet(b, node, rank, r + 1);
      var ps, qs := PeersFrom(b, node, rank, r), PeersFrom(b, node, rank, r + 1);
      hide OwedAll;
      if r != rank {
        assert Direct(b, ps) == Direct(b, [x]) + Direct(b, qs);
        OwedConcat(b, Direct(b, [x]), Direct(b, qs));
        OwedOne(b, x);
        ToldUnion(b, {x}, more);
      } else {
        assert ps == qs;
      }
    }
  }

  lemma OwedOne(b: Cast, p: nat)
    requires CastOk(b)
    ensures OwedAll(b, Direct(b, [p])) == Told(b, {p})
  {
    var cs := Direct(b, [p]);
    assert cs == [Copy(p, b.user, b.user)] && cs[..0] == [];
    assert (set x | x in {p} :: Delivery(x, b.user)) == {Delivery(p, b.user)};
  }

  /** A relay step: the PE itself, its peers and the processes it sends to make up
      everything under its process. */
  lemma Spread(b: Cast, pe: nat)
    requires CastOk(b) && pe < b.nodes * b.size
    ensures OwedAll(b, Sends(b, pe)) + multiset{Delivery(pe, b.user)}
            == Told(b, PesUnder(b, Rel(b, NodeOf(b.size, pe))))
  {
    NodeBelow(b.nodes, b.size, pe);
    var node, rank := NodeOf(b.size, pe), RankOf(b.size, pe);
    var i, out := Rel(b, node), Forward(b, node);
    var rels := Rels(b, out);
    ForwardKids(b, node);
    hide OwedAll, Told, Forward, NodeOf, RankOf, T, PesUnder, PeerSet;
    OwedConcat(b, Relays(b, out), Direct(b, PeersFrom(b, node, rank, 0)));
    OwedRelays(b, i, out);
    Parts(b.size, pe);
    OwedPeers(b, node, rank, 0);
    OwedOne(b, pe);
    OwedSelf(b, pe);
    var below, peers := ManyUnder(b, rels), PeerSet(b, node, rank, 0);
    OwnPes(b, pe);
    UnderParts(b, node, rels);
    ToldUnion(b, peers, {pe});
    ToldUnion(b, below, NodePes(b, node));
  }

  lemma OwedSelf(b: Cast, pe: nat)
    ensures Told(b, {pe}) == multiset{Delivery(pe, b.user)}
  {
    assert (set x | x in {pe} :: Delivery(x, b.user)) == {Delivery(pe, b.user)};
  }

  lemma OwnPes(b: Cast, pe: nat)
    requires CastOk(b) && pe < b.nodes * b.size
    ensures var peers := PeerSet(b, NodeOf(b.size, pe), RankOf(b.size, pe), 0);
            pe !in peers && peers + {pe} == NodePes(b, NodeOf(b.size, pe))
  {
    Parts(b.size, pe);
    forall p: nat | NodeOf(b.size, p) == NodeOf(b.size, pe) && RankOf(b.size, p) == RankOf(b.size, pe) ensures p == pe {
      Parts(b.size, p);
    }
  }

  lemma ForwardKids(b: Cast, node: nat)
    requires CastOk(b) && node < b.nodes
    ensures Distinct(Rels(b, Forward(b, node)))
    ensures forall c :: c in Rels(b, Forward(b, node)) <==> c in KidSet(T(b), Rel(b, node))
  {
    var i, rels := Rel(b, node), Rels(b, Forward(b, node));
    hide Forward;
    forall c: nat ensures c in rels <==> c in KidSet(T(b), i) {
      if c > 0 {
        Kids4Range(b.nodes, i, c);
        if i * WIDTH + 1 <= c < i * WIDTH + 1 + |rels| {
          assert rels[c - (i * WIDTH + 1)] == c;
        }
      }
    }
  }

  lemma UnderParts(b: Cast, node: nat, rels: seq<nat>)
    requires CastOk(b) && node < b.nodes && forall c :: c in rels <==> c in KidSet(T(b), Rel(b, node))
    ensures ManyUnder(b, rels) !! NodePes(b, node)
    ensures ManyUnder(b, rels) + NodePes(b, node) == PesUnder(b, Rel(b, node))
  {
    hide T, KidSet, NodeOf;
    var i, below, own := Rel(b, node), ManyUnder(b, rels), NodePes(b, node);
    forall p | p in below ensures p in PesUnder(b, i) && p !in own {
      var c :| c in rels && p in PesUnder(b, c);
      UnderUp(T(b), i, c, Rel(b, NodeOf(b.size, p)));
    }
    forall p | p in PesUnder(b, i) && p !in own ensures p in below {
      PeRel(b, p);
      RelNode(b, node);
      RelNode(b, NodeOf(b.size, p));
      var c := UnderVia(T(b), i, Rel(b, NodeOf(b.size, p)));
      assert c in rels && p in PesUnder(b, c);
    }
  }

  lemma PeRel(b: Cast, p: nat)
    requires CastOk(b) && p < b.nodes * b.size
    ensures NodeOf(b.size, p) < b.nodes && Rel(b, NodeOf(b.size, p)) < b.nodes
  {
    NodeBelow(b.nodes, b.size, p);
  }

  // ----- whole broadcasts

  ghost predicate CopyOk(b: Cast, c: Copy) {
    c.dest < b.nodes * b.size && c.swap == b.user && (c.handler == RELAY || c.handler == b.user)
  }

  ghost function Pes(n: nat): (ps: set<nat>)
    ensures forall p: nat :: p in ps <==> p < n
    ensures |ps| == n
  {
    if n == 0 then {} else Pes(n - 1) + {n - 1}
  }

  /** Every PE but the source, once, with the user's handler: what the plain loop
      over all PEs delivers. */
  ghost function Flat(b: Cast, src: nat): multiset<Delivery> {
    Told(b, Pes(b.nodes * b.size) - {src})
  }

  ghost predicate Inv(b: Cast, src: nat, s: State) {
    && CastOk(b) && (forall j :: 0 <= j < |s.net| ==> CopyOk(b, s.net[j]))
    && s.log + OwedAll(b, s.net) == Flat(b, src)
  }

  lemma SendsOk(b: Cast, pe: nat)
    requires CastOk(b) && pe < b.nodes * b.size
    ensures forall j :: 0 <= j < |Sends(b, pe)| ==> CopyOk(b, Sends(b, pe)[j])
  {
    NodeBelow(b.nodes, b.size, pe);
    var node := NodeOf(b.size, pe);
    var out := Forward(b, node);
    hide Forward, NodeOf, RankOf;
    forall j | 0 <= j < |out| ensures out[j] * b.size < b.nodes * b.size {
      Apart(b.size, out[j], b.nodes);
    }
    PeersOk(b, node, RankOf(b.size, pe), 0);
  }

  lemma {:induction false} PeersOk(b: Cast, node: nat, rank: nat, r: nat)
    requires CastOk(b) && node < b.nodes
    ensures forall j :: 0 <= j < |PeersFrom(b, node, rank, r)| ==> PeersFrom(b, node, rank, r)[j] < b.nodes * b.size
    decreases b.size - r
  {
    if r < b.size {
      Apart(b.size, node, b.nodes);
      PeersOk(b, node, rank, r + 1);
    }
  }

  lemma InvStart(b: Cast, src: nat)
    requires CastOk(b) && src < b.nodes * b.size && NodeOf(b.size, src) == b.root
    ensures Inv(b, src, State(Sends(b, src), multiset{}))
  {
    SendsOk(b, src);
    StartOwes(b, src);
    hide OwedAll, Flat, Sends, NodeOf, CopyOk;
    assert multiset{} + OwedAll(b, Sends(b, src)) == OwedAll(b, Sends(b, src));
  }

  /** The source's own sends owe everyone else a delivery. */
  lemma StartOwes(b: Cast, src: nat)
    requires CastOk(b) && src < b.nodes * b.size && NodeOf(b.size, src) == b.root
    ensures OwedAll(b, Sends(b, src)) == Flat(b, src)
  {
    hide OwedAll, Told, Sends, PesUnder, NodeOf, Pes;
    Spread(b, src);
    EveryPe(b);
    OwedSelf(b, src);
    var all := Pes(b.nodes * b.size);
    ToldUnion(b, all - {src}, {src});
    assert all - {src} + {src} == all;
    Cancel(OwedAll(b, Sends(b, src)), Told(b, all - {src}), multiset{Delivery(src, b.user)});
  }

  lemma EveryPe(b: Cast)
    requires CastOk(b)
    ensures PesUnder(b, 0) == Pes(b.nodes * b.size)
  {
    hide T;
    forall p: nat | p < b.nodes * b.size ensures Under(T(b), 0, Rel(b, NodeOf(b.size, p))) {
      UnderRoot(T(b), Rel(b, NodeOf(b.size, p)));
    }
  }

  lemma StepKeeps(b: Cast, src: nat, s: State, j: nat)
    requires Inv(b, src, s) && j < |s.net|
    ensures Inv(b, src, Step(b, s, j)) && |Step(b, s, j).log| == |s.log| + 1
  {
    hide OwedAll, Told, Sends, PesUnder, Flat;
    var c, rest := s.net[j], s.net[..j] + s.net[j + 1..];
    assert CopyOk(b, c);
    OwedRemove(b, s.net, j);
    if c.handler == RELAY {
      SendsOk(b, c.dest);
      OwedConcat(b, rest, Sends(b, c.dest));
      Spread(b, c.dest);
    }
  }

  ghost predicate Legal(b: Cast, src: nat, picks: seq<nat>)
    decreases |picks|, 0
  {
    && CastOk(b) && src < b.nodes * b.size && NodeOf(b.size, src) == b.root
    && (picks == [] ||
        (Legal(b, src, picks[..|picks| - 1]) && picks[|picks| - 1] < |After(b, src, picks[..|picks| - 1]).net|))
  }

  /** The state after the copies have arrived in the given order. */
  ghost function After(b: Cast, src: nat, picks: seq<nat>): (s: State)
    requires Legal(b, src, picks)
    ensures Inv(b, src, s) && |s.log| == |picks|
    decreases |picks|, 1
  {
    if picks == [] then
      InvStart(b, src);
      State(Sends(b, src), multiset{})
    else
      var s := After(b, src, picks[..|picks| - 1]);
      StepKeeps(b, src, s, picks[|picks| - 1]);
      Step(b, s, picks[|picks| - 1])
  }

  lemma OwesSomething(b: Cast, cs: seq<Copy>)
    requires CastOk(b) && cs != [] && CopyOk(b, cs[|cs| - 1])
    ensures OwedAll(b, cs) != multiset{}
  {
    var c := cs[|cs| - 1];
    if c.handler == RELAY {
      var i := Rel(b, NodeOf(b.size, c.dest));
      assert c.dest in PesUnder(b, i);
      assert Delivery(c.dest, b.user) in set p | p in PesUnder(b, i) :: Delivery(p, b.user);
      assert Delivery(c.dest, b.user) in Told(b, PesUnder(b, i));
    }
  }

  lemma FlatSize(b: Cast, src: nat)
    requires CastOk(b) && src < b.nodes * b.size
    ensures |Flat(b, src)| == b.nodes * b.size - 1
  {
    ToldSize(b, Pes(b.nodes * b.size) - {src});
  }

  lemma {:induction false} ToldSize(b: Cast, ps: set<nat>)
    ensures |Told(b, ps)| == |ps|
  {
    if ps != {} {
      var p :| p in ps;
      ToldSize(b, ps - {p});
      ToldUnion(b, ps - {p}, {p});
      OwedSelf(b, p);
      assert ps - {p} + {p} == ps;
    } else {
      NoneTold(b);
    }
  }

  /** For every machine, source and order of arrival: the broadcast is over after
      exactly one delivery to each PE other than the source, all with the user's
      handler; before that some copy is under way, and none is ever delivered twice. */
  lemma SameAsFlat(b: Cast, src: nat, picks: seq<nat>)
    requires Legal(b, src, picks)
    ensures var s := After(b, src, picks);
            && s.log <= Flat(b, src)
            && (s.net == [] ==> s.log == Flat(b, src))
            && (s.net == [] <==> |picks| == b.nodes * b.size - 1)
            && |picks| <= b.nodes * b.size - 1
  {
    var s := After(b, src, picks);
    hide Flat, Legal, After;
    FlatSize(b, src);
    if s.net != [] {
      OwesSomething(b, s.net);
    }
  }

  /** One more PE is told. */
  lemma TellNext(b: Cast, log: seq<Delivery>, done: set<nat>, i: nat)
    requires multiset(log) == Told(b, done) && i !in done
    ensures multiset(log + [Delivery(i, b.user)]) == Told(b, done + {i})
  {
    hide Told;
    ToldUnion(b, done, {i});
    OwedSelf(b, i);
  }

  /** The plain loop of CmiSyncBroadcast. */
  method FlatBroadcast(b: Cast, pe: nat) returns (log: seq<Delivery>)
    requires pe < b.nodes * b.size
    ensures multiset(log) == Flat(b, pe)
  {
    hide Told, Pes;
    log := [];
    ghost var done: set<nat> := {};
    NoneTold(b);
    var i := pe + 1;
    while i < b.nodes * b.size
      invariant pe < i <= b.nodes * b.size
      invariant forall p :: p in done <==> pe < p < i
      invariant multiset(log) == Told(b, done)
    {
      TellNext(b, log, done, i);
      log := log + [Delivery(i, b.user)];
      done := done + {i};
      i := i + 1;
    }
    i := 0;
    while i < pe
      invariant 0 <= i <= pe
      invariant forall p: nat :: p in done <==> pe < p < b.nodes * b.size || p < i
      invariant multiset(log) == Told(b, done)
    {
      TellNext(b, log, done, i);
      log := log + [Delivery(i, b.user)];
      done := done + {i};
      i := i + 1;
    }
    assert done == Pes(b.nodes * b.size) - {pe};
  }
}
