/** The two linked structures that src/mempool.C keeps in the slot headers of one
    block: the neighbour chain (gprev/gnext) and the free lists (prev/next).
    Locations are offsets; 0 is the null link. */
module MempoolLinks {
  import opened Collections
  import opened SizeClasses
  import opened MempoolShape

  /** slot_header */
  datatype Slot = Slot(size: nat, power: nat, status: int, gprev: nat, gnext: nat, prev: nat, next: nat)

  type Memory = map<nat, Slot>

  // ----- the neighbour chain

  function LocAfter(tiles: seq<Tile>, k: nat, after: nat): nat {
    if k + 1 < |tiles| then tiles[k + 1].loc else after
  }

  function LocBefore(tiles: seq<Tile>, k: nat, before: nat): nat {
    if 0 < k <= |tiles| then tiles[k - 1].loc else before
  }

  ghost predicate TileOk(m: Memory, t: Tile, gprev: nat, gnext: nat) {
    && t.loc in m
    && m[t.loc].size == Cut(t.power) && m[t.loc].power == t.power
    && m[t.loc].status == (if t.free then 1 else 0)
    && m[t.loc].gprev == gprev && m[t.loc].gnext == gnext
  }

  /** The headers at the tiles' locations describe them and link each to its
      neighbours; `before` and `after` are the outer links. */
  ghost predicate ChainRep(m: Memory, tiles: seq<Tile>, before: nat, after: nat) {
    forall k :: 0 <= k < |tiles| ==> TileOk(m, tiles[k], LocBefore(tiles, k, before), LocAfter(tiles, k, after))
  }

  ghost predicate SameTile(m: Memory, m': Memory, x: nat) {
    x in m ==> x in m' && m'[x] == m[x].(prev := m'[x].prev, next := m'[x].next)
  }

  /** Changing free-list links, or headers elsewhere, leaves a chain alone. */
  lemma ChainFrame(m: Memory, m': Memory, tiles: seq<Tile>, before: nat, after: nat)
    requires ChainRep(m, tiles, before, after)
    requires forall k :: 0 <= k < |tiles| ==> SameTile(m, m', tiles[k].loc)
    ensures ChainRep(m', tiles, before, after)
  {
    forall k | 0 <= k < |tiles|
      ensures TileOk(m', tiles[k], LocBefore(tiles, k, before), LocAfter(tiles, k, after))
    {
      assert TileOk(m, tiles[k], LocBefore(tiles, k, before), LocAfter(tiles, k, after));
      assert SameTile(m, m', tiles[k].loc);
    }
  }

  function FirstOr(tiles: seq<Tile>, d: nat): nat {
    if tiles == [] then d else tiles[0].loc
  }

  function LastOr(tiles: seq<Tile>, d: nat): nat {
    if tiles == [] then d else tiles[|tiles| - 1].loc
  }

  lemma ChainConcat(m: Memory, a: seq<Tile>, b: seq<Tile>, before: nat, after: nat)
    ensures ChainRep(m, a + b, before, after)
       <==> ChainRep(m, a, before, FirstOr(b, after)) && ChainRep(m, b, LastOr(a, before), after)
  {
    var s := a + b;
    forall k | 0 <= k < |a|
      ensures s[k] == a[k] && LocBefore(s, k, before) == LocBefore(a, k, before)
      ensures LocAfter(s, k, after) == LocAfter(a, k, FirstOr(b, after))
    {
    }
    forall k | 0 <= k < |b|
      ensures s[|a| + k] == b[k] && LocBefore(s, |a| + k, before) == LocBefore(b, k, LastOr(a, before))
      ensures LocAfter(s, |a| + k, after) == LocAfter(b, k, after)
    {
    }
    if ChainRep(m, s, before, after) {
      forall k | 0 <= k < |b| ensures TileOk(m, b[k], LocBefore(b, k, LastOr(a, before)), LocAfter(b, k, after)) {
        assert TileOk(m, s[|a| + k], LocBefore(s, |a| + k, before), LocAfter(s, |a| + k, after));
      }
      forall k | 0 <= k < |a| ensures TileOk(m, a[k], LocBefore(a, k, before), LocAfter(a, k, FirstOr(b, after))) {
        assert TileOk(m, s[k], LocBefore(s, k, before), LocAfter(s, k, after));
      }
    }
    if ChainRep(m, a, before, FirstOr(b, after)) && ChainRep(m, b, LastOr(a, before), after) {
      forall k | 0 <= k < |s| ensures TileOk(m, s[k], LocBefore(s, k, before), LocAfter(s, k, after)) {
        if k < |a| {
          assert TileOk(m, a[k], LocBefore(a, k, before), LocAfter(a, k, FirstOr(b, after)));
        } else {
          assert TileOk(m, b[k - |a|], LocBefore(b, k - |a|, LastOr(a, before)), LocAfter(b, k - |a|, after));
        }
      }
    }
  }

  /** Redirecting the outer link of the last slot of a chain. */
  lemma ChainSetAfter(m: Memory, tiles: seq<Tile>, before: nat, after: nat, x: nat)
    requires ChainRep(m, tiles, before, after) && tiles != [] && LocsApart(tiles)
    ensures var l := tiles[|tiles| - 1].loc;
            l in m && ChainRep(m[l := m[l].(gnext := x)], tiles, before, x)
  {
    var n := |tiles| - 1;
    var l := tiles[n].loc;
    assert TileOk(m, tiles[n], LocBefore(tiles, n, before), LocAfter(tiles, n, after));
    var m' := m[l := m[l].(gnext := x)];
    forall k | 0 <= k < |tiles| ensures TileOk(m', tiles[k], LocBefore(tiles, k, before), LocAfter(tiles, k, x)) {
      assert TileOk(m, tiles[k], LocBefore(tiles, k, before), LocAfter(tiles, k, after));
    }
  }

  lemma ChainSetBefore(m: Memory, tiles: seq<Tile>, before: nat, after: nat, x: nat)
    requires ChainRep(m, tiles, before, after) && tiles != [] && LocsApart(tiles)
    ensures var f := tiles[0].loc;
            f in m && ChainRep(m[f := m[f].(gprev := x)], tiles, x, after)
  {
    var f := tiles[0].loc;
    assert TileOk(m, tiles[0], LocBefore(tiles, 0, before), LocAfter(tiles, 0, after));
    var m' := m[f := m[f].(gprev := x)];
    forall k | 0 <= k < |tiles| ensures TileOk(m', tiles[k], LocBefore(tiles, k, x), LocAfter(tiles, k, after)) {
      assert TileOk(m, tiles[k], LocBefore(tiles, k, before), LocAfter(tiles, k, after));
    }
  }

  /** A chain grows by a slot whose header has just been written, once the slot
      before it points to it. */
  lemma ChainSnoc(m: Memory, tiles: seq<Tile>, t: Tile, before: nat, after: nat)
    requires ChainRep(m, tiles, before, t.loc) && TileOk(m, t, LastOr(tiles, before), after)
    ensures ChainRep(m, tiles + [t], before, after)
  {
    assert ChainRep(m, [t], LastOr(tiles, before), after);
    ChainConcat(m, tiles, [t], before, after);
  }

  // ----- the free lists

  function PrevOn(s: seq<nat>, j: nat): nat {
    if 0 < j <= |s| then s[j - 1] else 0
  }

  function NextOn(s: seq<nat>, j: nat): nat {
    if j + 1 < |s| then s[j + 1] else 0
  }

  ghost predicate LinkOk(m: Memory, x: nat, prev: nat, next: nat) {
    x in m && m[x].prev == prev && m[x].next == next
  }

  ghost predicate ListRep(m: Memory, s: seq<nat>) {
    forall j :: 0 <= j < |s| ==> LinkOk(m, s[j], PrevOn(s, j), NextOn(s, j))
  }

  function HeadOf(s: seq<nat>): nat {
    if s == [] then 0 else s[0]
  }

  ghost predicate ListsRep(m: Memory, heads: seq<nat>, lists: seq<seq<nat>>) {
    && |heads| == |lists|
    && (forall p :: 0 <= p < |lists| ==> heads[p] == HeadOf(lists[p]) && ListRep(m, lists[p]))
  }

  /** No location is on two lists, none twice on one, and none is null. */
  ghost predicate ListsApart(lists: seq<seq<nat>>) {
    && (forall p :: 0 <= p < |lists| ==> Distinct(lists[p]) && 0 !in lists[p])
    && (forall p, q, x :: 0 <= p < |lists| && 0 <= q < |lists| && x in lists[p] && x in lists[q] ==> p == q)
  }

  ghost predicate OnNoList(lists: seq<seq<nat>>, x: nat) {
    forall p :: 0 <= p < |lists| ==> x !in lists[p]
  }

  ghost predicate SameLinks(m: Memory, m': Memory, x: nat) {
    x in m ==> x in m' && m'[x].prev == m[x].prev && m'[x].next == m[x].next
  }

  lemma ListFrame(m: Memory, m': Memory, s: seq<nat>)
    requires ListRep(m, s) && forall x :: x in s ==> SameLinks(m, m', x)
    ensures ListRep(m', s)
  {
    forall j | 0 <= j < |s| ensures LinkOk(m', s[j], PrevOn(s, j), NextOn(s, j)) {
      assert LinkOk(m, s[j], PrevOn(s, j), NextOn(s, j));
      assert SameLinks(m, m', s[j]);
    }
  }

  lemma ListsFrame(m: Memory, m': Memory, heads: seq<nat>, lists: seq<seq<nat>>)
    requires ListsRep(m, heads, lists)
    requires forall x :: !OnNoList(lists, x) ==> SameLinks(m, m', x)
    ensures ListsRep(m', heads, lists)
  {
    hide ListRep;
    forall p | 0 <= p < |lists| ensures ListRep(m', lists[p]) {
      ListFrame(m, m', lists[p]);
    }
  }

  /** A valid shape's lists are apart. */
  lemma CoversApart(lists: seq<seq<nat>>, ts: set<Tile>)
    requires Covers(lists, ts) && LocsUnique(ts) && forall t :: t in ts ==> t.loc > 0
    ensures ListsApart(lists)
  {
    forall p | 0 <= p < |lists| ensures Distinct(lists[p]) && 0 !in lists[p] {
      assert forall x :: x in lists[p] ==> Tile(x, p, true) in ts;
    }
    forall p, q, x | 0 <= p < |lists| && 0 <= q < |lists| && x in lists[p] && x in lists[q] ensures p == q {
      assert Tile(x, p, true) in ts && Tile(x, q, true) in ts;
    }
  }

  /** What pushing `x` on the front of list `p` writes. */
  function Linked(m: Memory, heads: seq<nat>, p: nat, x: nat): Memory
    requires p < |heads| && x in m
  {
    var m1 := m[x := m[x].(prev := 0, next := heads[p])];
    if heads[p] == 0 || heads[p] !in m1 then m1 else m1[heads[p] := m1[heads[p]].(prev := x)]
  }

  lemma LinkedOne(m: Memory, s: seq<nat>, x: nat, h: nat, m': Memory)
    requires ListRep(m, s) && Distinct(s) && 0 !in s && x !in s && x in m && h == HeadOf(s) && x != 0
    requires m' == Linked(m, [h], 0, x)
    ensures ListRep(m', [x] + s)
  {
    var t := [x] + s;
    assert s != [] ==> s[0] in s && LinkOk(m, s[0], PrevOn(s, 0), NextOn(s, 0));
    forall j | 0 <= j < |t| ensures LinkOk(m', t[j], PrevOn(t, j), NextOn(t, j)) {
      if j > 0 {
        assert t[j] == s[j - 1] && NextOn(t, j) == NextOn(s, j - 1);
        assert LinkOk(m, s[j - 1], PrevOn(s, j - 1), NextOn(s, j - 1));
        assert s[j - 1] in s;
        if j > 1 {
          assert s[j - 1] != s[0] && PrevOn(t, j) == PrevOn(s, j - 1);
        }
      }
    }
  }

  lemma LinkedRep(m: Memory, heads: seq<nat>, lists: seq<seq<nat>>, t: Tile)
    requires ListsRep(m, heads, lists) && ListsApart(lists) && t.power < |lists|
    requires OnNoList(lists, t.loc) && t.loc in m && t.loc != 0
    ensures ListsRep(Linked(m, heads, t.power, t.loc), heads[t.power := t.loc], PushFree(lists, t))
  {
    hide ListRep;
    var p := t.power;
    var m', ls := Linked(m, heads, p, t.loc), PushFree(lists, t);
    LinkedOne(m, lists[p], t.loc, heads[p], m');
    forall q | 0 <= q < |ls| && q != p ensures ListRep(m', ls[q]) {
      forall x | x in lists[q] ensures SameLinks(m, m', x) {
        assert x != t.loc;
        HeadOnList(lists[p]);
        assert heads[p] != 0 ==> x != heads[p];
      }
      ListFrame(m, m', lists[q]);
    }
  }

  lemma HeadOnList(s: seq<nat>)
    ensures s != [] ==> HeadOf(s) in s
  {
  }

  /** What unlinking `x` from list `p` writes, as the loop in mempool_free does. */
  function Unlinked(m: Memory, x: nat): Memory
    requires x in m
  {
    var h := m[x];
    var m1 := if h.prev != 0 && h.prev in m then m[h.prev := m[h.prev].(next := h.next)] else m;
    if h.next != 0 && h.next in m1 then m1[h.next := m1[h.next].(prev := h.prev)] else m1
  }

  function UnlinkedHead(m: Memory, head: nat, x: nat): nat
    requires x in m
  {
    if m[x].prev != 0 then head else m[x].next
  }

  lemma {:induction false} WithoutAt(s: seq<nat>, j: nat)
    requires Distinct(s) && j < |s|
    ensures Without(s, s[j]) == s[..j] + s[j + 1..]
  {
    if j > 0 {
      WithoutAt(s[1..], j - 1);
      assert s[1..][j - 1] == s[j];
      assert s[1..][..j - 1] == s[1..j] && s[1..][j..] == s[j + 1..];
      assert [s[0]] + (s[1..j] + s[j + 1..]) == s[..j] + s[j + 1..];
    }
  }

  lemma UnlinkedOne(m: Memory, s: seq<nat>, j: nat)
    requires ListRep(m, s) && Distinct(s) && 0 !in s && j < |s|
    ensures ListRep(Unlinked(m, s[j]), s[..j] + s[j + 1..])
    ensures UnlinkedHead(m, HeadOf(s), s[j]) == HeadOf(s[..j] + s[j + 1..])
  {
    hide ListRep;
    ListHas(m, s, j);
    var m', t := Unlinked(m, s[j]), s[..j] + s[j + 1..];
    if j > 0 {
      ListHas(m, s, j - 1);
    }
    if j + 1 < |s| {
      ListHas(m, s, j + 1);
    }
    forall i | 0 <= i < |t| ensures LinkOk(m', t[i], PrevOn(t, i), NextOn(t, i)) {
      var k := if i < j then i else i + 1;
      ListHas(m, s, k);
      assert t[i] == s[k];
      assert PrevOn(t, i) == if k == j + 1 then PrevOn(s, j) else PrevOn(s, k);
      assert NextOn(t, i) == if k + 1 == j then NextOn(s, j) else NextOn(s, k);
      assert j + 1 < |s| && k != j + 1 ==> s[k] != s[j + 1];
      assert j > 0 && k != j - 1 ==> s[k] != s[j - 1];
    }
    ListFrom(m', t);
  }

  lemma ListFrom(m: Memory, s: seq<nat>)
    requires forall j :: 0 <= j < |s| ==> LinkOk(m, s[j], PrevOn(s, j), NextOn(s, j))
    ensures ListRep(m, s)
  {
  }

  lemma UnlinkedRep(m: Memory, heads: seq<nat>, lists: seq<seq<nat>>, t: Tile)
    requires ListsRep(m, heads, lists) && ListsApart(lists) && t.power < |lists| && t.loc in lists[t.power]
    ensures t.loc in m
    ensures ListsRep(Unlinked(m, t.loc), heads[t.power := UnlinkedHead(m, heads[t.power], t.loc)], DropFree(lists, t))
  {
    hide ListRep, UnlinkedHead;
    var p, s := t.power, lists[t.power];
    var j :| 0 <= j < |s| && s[j] == t.loc;
    ListHas(m, s, j);
    WithoutAt(s, j);
    UnlinkedOne(m, s, j);
    var m', ls := Unlinked(m, t.loc), DropFree(lists, t);
    forall q | 0 <= q < |ls| && q != p ensures ListRep(m', ls[q]) {
      forall x | x in lists[q] ensures SameLinks(m, m', x) {
        assert x !in s;
      }
      ListFrame(m, m', lists[q]);
    }
  }

  lemma ListHas(m: Memory, s: seq<nat>, j: nat)
    requires ListRep(m, s) && j < |s|
    ensures LinkOk(m, s[j], PrevOn(s, j), NextOn(s, j)) && s[j] in s
    ensures m[s[j]].prev == 0 || m[s[j]].prev in s
    ensures m[s[j]].next == 0 || m[s[j]].next in s
  {
    assert j > 0 ==> s[j - 1] in s;
    assert j + 1 < |s| ==> s[j + 1] in s;
  }
}
