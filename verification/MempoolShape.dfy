/** What one block of the mempool looks like, as values: the slots in address
    order, and the free list of each size class. src/mempool.C keeps the first as
    the gprev/gnext chain and the second as the prev/next lists. */
module MempoolShape {
  import opened Collections
  import opened SizeClasses

  /** cutOffNum: slots have classes 0..23; class 24 only bounds them. */
  const POWERS: nat := 24

  datatype Tile = Tile(loc: nat, power: nat, free: bool) {
    function End(): nat { loc + Cut(power) }
  }

  datatype Shape = Shape(tiles: seq<Tile>, lists: seq<seq<nat>>)

  /** The tiles fill [at, end) in order, without gap or overlap. */
  ghost predicate Tiling(tiles: seq<Tile>, at: nat, end: nat) {
    if tiles == [] then at == end
    else tiles[0].loc == at && tiles[0].power < POWERS && Tiling(tiles[1..], tiles[0].End(), end)
  }

  ghost function Set(tiles: seq<Tile>): set<Tile> {
    set t | t in tiles
  }

  /** The free lists hold exactly the free tiles, each once, under its class. */
  ghost predicate Covers(lists: seq<seq<nat>>, ts: set<Tile>) {
    && |lists| == POWERS
    && (forall p :: 0 <= p < POWERS ==> Distinct(lists[p]))
    && (forall p, x :: 0 <= p < POWERS && x in lists[p] ==> Tile(x, p, true) in ts)
    && (forall t :: t in ts && t.free ==> t.power < POWERS && t.loc in lists[t.power])
  }

  ghost predicate Valid(s: Shape, begin: nat, end: nat) {
    0 < begin && Tiling(s.tiles, begin, end) && Covers(s.lists, Set(s.tiles))
  }

  // ----- filling, splitting, taking and freeing

  /** The largest slots first, at most one of each class below `n`. */
  function Greedy(at: nat, size: nat, n: nat): seq<Tile>
    decreases n
  {
    if n == 0 then []
    else if size >= Cut(n - 1) then [Tile(at, n - 1, true)] + Greedy(at + Cut(n - 1), size - Cut(n - 1), n - 1)
    else Greedy(at, size, n - 1)
  }

  function PushFree(lists: seq<seq<nat>>, t: Tile): (ls: seq<seq<nat>>)
    ensures |ls| == |lists|
  {
    if t.power < |lists| then lists[t.power := [t.loc] + lists[t.power]] else lists
  }

  function PushAll(lists: seq<seq<nat>>, tiles: seq<Tile>): (ls: seq<seq<nat>>)
    ensures |ls| == |lists|
    decreases |tiles|
  {
    if tiles == [] then lists else PushAll(PushFree(lists, tiles[0]), tiles[1..])
  }

  /** `n` empty free lists. */
  function NoLists(n: nat): (ls: seq<seq<nat>>)
    ensures |ls| == n && forall p :: 0 <= p < n ==> ls[p] == []
  {
    if n == 0 then [] else NoLists(n - 1) + [[]]
  }

  /** fillblock */
  function Filled(begin: nat, size: nat): Shape {
    var tiles := Greedy(begin, size, POWERS);
    Shape(tiles, PushAll(NoLists(POWERS), tiles))
  }

  function Without(s: seq<nat>, x: nat): seq<nat> {
    if s == [] then [] else if s[0] == x then s[1..] else [s[0]] + Without(s[1..], x)
  }

  function DropFree(lists: seq<seq<nat>>, t: Tile): (ls: seq<seq<nat>>)
    ensures |ls| == |lists|
  {
    if t.power < |lists| then lists[t.power := Without(lists[t.power], t.loc)] else lists
  }

  /** Unlinks the free tiles of a run. */
  function DropAll(lists: seq<seq<nat>>, run: seq<Tile>): (ls: seq<seq<nat>>)
    ensures |ls| == |lists|
    decreases |run|
  {
    if run == [] then lists
    else DropAll(if run[0].free then DropFree(lists, run[0]) else lists, run[1..])
  }

  /** How far the free neighbourhood of a slot reaches: the first index of the
      free run that ends at `k`, and the end of the one that starts at `k`. */
  function RunStart(tiles: seq<Tile>, k: nat): (i: nat)
    requires k <= |tiles|
    ensures i <= k && forall x :: i <= x < k ==> tiles[x].free
    ensures i > 0 ==> !tiles[i - 1].free
  {
    if k == 0 || !tiles[k - 1].free then k else RunStart(tiles, k - 1)
  }

  function RunEnd(tiles: seq<Tile>, k: nat): (j: nat)
    requires k <= |tiles|
    ensures k <= j <= |tiles| && forall x :: k <= x < j ==> tiles[x].free
    ensures j < |tiles| ==> !tiles[j].free
    decreases |tiles| - k
  {
    if k == |tiles| || !tiles[k].free then k else RunEnd(tiles, k + 1)
  }

  function Bytes(tiles: seq<Tile>): nat {
    if tiles == [] then 0 else Cut(tiles[0].power) + Bytes(tiles[1..])
  }

  /** mempool_free of the used slot `tiles[k]`: its whole free neighbourhood is
      unlinked and cut again into slots as large as possible. */
  function Freed(s: Shape, k: nat): Shape
    requires k < |s.tiles|
  {
    var i, j := RunStart(s.tiles, k), RunEnd(s.tiles, k + 1);
    var run := s.tiles[i..j];
    var pieces := Greedy(run[0].loc, Bytes(run), POWERS);
    Shape(s.tiles[..i] + pieces + s.tiles[j..], PushAll(DropAll(s.lists, run), pieces))
  }

  /** The smallest class from `p` on with a free slot; POWERS if there is none. */
  function FirstFit(lists: seq<seq<nat>>, p: nat): (q: nat)
    requires |lists| == POWERS && p <= POWERS
    ensures p <= q <= POWERS
    ensures forall x :: p <= x < q ==> lists[x] == []
    ensures q < POWERS ==> lists[q] != []
    decreases POWERS - p
  {
    if p == POWERS || lists[p] != [] then p else FirstFit(lists, p + 1)
  }

  /** Slots of classes `i`, `i` + 1, ..., `q` - 1, one of each. */
  function Ladder(at: nat, i: nat, q: nat): seq<Tile>
    decreases q - i
  {
    if i >= q then [] else [Tile(at, i, true)] + Ladder(at + Cut(i), i + 1, q)
  }

  /** A slot of class `q` cut so that it starts with two of class `p`. */
  function Pieces(at: nat, p: nat, q: nat): seq<Tile> {
    [Tile(at, p, true)] + Ladder(at + Cut(p), p, q)
  }

  function AppendAll(lists: seq<seq<nat>>, tiles: seq<Tile>): (ls: seq<seq<nat>>)
    ensures |ls| == |lists|
    decreases |tiles|
  {
    if tiles == [] then lists
    else var t := tiles[0];
         AppendAll(if t.power < |lists| then lists[t.power := lists[t.power] + [t.loc]] else lists, tiles[1..])
  }

  function IndexOf(tiles: seq<Tile>, loc: nat): (k: nat)
    ensures k <= |tiles|
    ensures k < |tiles| ==> tiles[k].loc == loc
    ensures (exists t :: t in tiles && t.loc == loc) ==> k < |tiles|
  {
    if tiles == [] || tiles[0].loc == loc then 0 else 1 + IndexOf(tiles[1..], loc)
  }

  /** checkblock's split of the first free slot of class `q`. */
  function Split(s: Shape, p: nat, q: nat): Shape
    requires p < q < |s.lists| && s.lists[q] != [] && IndexOf(s.tiles, s.lists[q][0]) < |s.tiles|
  {
    var loc := s.lists[q][0];
    var k := IndexOf(s.tiles, loc);
    var pieces := Pieces(loc, p, q);
    Shape(s.tiles[..k] + pieces + s.tiles[k + 1..], AppendAll(s.lists[q := s.lists[q][1..]], pieces))
  }

  /** mempool_malloc's use of the first free slot of class `p`. */
  function Taken(s: Shape, p: nat): Shape
    requires p < |s.lists| && s.lists[p] != [] && IndexOf(s.tiles, s.lists[p][0]) < |s.tiles|
  {
    var k := IndexOf(s.tiles, s.lists[p][0]);
    Shape(s.tiles[k := s.tiles[k].(free := false)], s.lists[p := s.lists[p][1..]])
  }

  // ----- tilings

  lemma {:induction false} TilingBytes(tiles: seq<Tile>, at: nat, end: nat)
    requires Tiling(tiles, at, end)
    ensures end == at + Bytes(tiles)
    ensures forall k :: 0 <= k < |tiles| ==> at <= tiles[k].loc && tiles[k].End() <= end && tiles[k].power < POWERS
    ensures forall j, k :: 0 <= j < k < |tiles| ==> tiles[j].End() <= tiles[k].loc
  {
    if tiles != [] {
      TilingBytes(tiles[1..], tiles[0].End(), end);
      assert forall k :: 0 < k < |tiles| ==> tiles[k] == tiles[1..][k - 1];
    }
  }

  lemma {:induction false} TilingConcat(a: seq<Tile>, b: seq<Tile>, at: nat, end: nat)
    ensures Tiling(a + b, at, end) <==> Tiling(a, at, at + Bytes(a)) && Tiling(b, at + Bytes(a), end)
  {
    if a == [] {
      assert a + b == b;
    } else {
      TilingConcat(a[1..], b, a[0].End(), end);
      assert (a + b)[1..] == a[1..] + b;
    }
  }

  lemma {:induction false} BytesConcat(a: seq<Tile>, b: seq<Tile>)
    ensures Bytes(a + b) == Bytes(a) + Bytes(b)
  {
    if a == [] {
      assert a + b == b;
    } else {
      BytesConcat(a[1..], b);
      assert (a + b)[1..] == a[1..] + b;
    }
  }

  /** Replacing a stretch of a tiling by another tiling of the same bytes. */
  lemma TilingReplace(a: seq<Tile>, b: seq<Tile>, c: seq<Tile>, b': seq<Tile>, at: nat, end: nat)
    requires Tiling(a + b + c, at, end) && Tiling(b', at + Bytes(a), at + Bytes(a) + Bytes(b))
    ensures Tiling(a + b' + c, at, end)
  {
    hide Tiling, Cut, Bytes;
    TilingConcat(a + b, c, at, end);
    TilingConcat(a, b, at, at + Bytes(a + b));
    BytesConcat(a, b);
    TilingBytes(b', at + Bytes(a), at + Bytes(a) + Bytes(b));
    BytesConcat(a, b');
    TilingConcat(a, b', at, at + Bytes(a + b'));
    TilingConcat(a + b', c, at, end);
  }

  lemma ModStep(size: nat, c: nat)
    requires c % 64 == 0 && size >= c
    ensures (size - c) % 64 == size % 64 && size - size % 64 >= c
  {
  }

  /** Free slots of ever smaller classes, all below `n`. */
  ghost predicate Descending(g: seq<Tile>, n: nat) {
    && (forall k :: 0 <= k < |g| ==> g[k].free && g[k].power < n)
    && (forall j, k :: 0 <= j < k < |g| ==> g[k].power < g[j].power)
  }

  lemma {:induction false} GreedyPowers(at: nat, size: nat, n: nat)
    ensures Descending(Greedy(at, size, n), n)
    decreases n
  {
    if n > 0 {
      if size >= Cut(n - 1) {
        var rest := Greedy(at + Cut(n - 1), size - Cut(n - 1), n - 1);
        assert Greedy(at, size, n) == [Tile(at, n - 1, true)] + rest;
        assert ([Tile(at, n - 1, true)] + rest)[1..] == rest;
        GreedyPowers(at + Cut(n - 1), size - Cut(n - 1), n - 1);
      } else {
        assert Greedy(at, size, n) == Greedy(at, size, n - 1);
        GreedyPowers(at, size, n - 1);
      }
    }
  }

  lemma {:induction false} GreedyTiling(at: nat, size: nat, n: nat)
    requires size < Cut(n) && n <= POWERS
    ensures Tiling(Greedy(at, size, n), at, at + (size - size % 64))
    decreases n
  {
    if n > 0 {
      CutDouble(n);
      hide Cut;
      if size >= Cut(n - 1) {
        var rest := Greedy(at + Cut(n - 1), size - Cut(n - 1), n - 1);
        assert Greedy(at, size, n) == [Tile(at, n - 1, true)] + rest;
        assert ([Tile(at, n - 1, true)] + rest)[1..] == rest;
        GreedyTiling(at + Cut(n - 1), size - Cut(n - 1), n - 1);
        ModStep(size, Cut(n - 1));
      } else {
        assert Greedy(at, size, n) == Greedy(at, size, n - 1);
        GreedyTiling(at, size, n - 1);
      }
    } else {
      SmallRest(size);
    }
  }

  lemma CutDouble(n: nat)
    requires n > 0
    ensures Cut(n) == 2 * Cut(n - 1)
  {
  }

  lemma SmallRest(size: nat)
    requires size < Cut(0)
    ensures size - size % 64 == 0
  {
  }

  /** The bytes that do not fill a smallest slot do not matter. */
  lemma {:induction false} GreedyRounds(at: nat, size: nat, n: nat)
    ensures Greedy(at, size, n) == Greedy(at, size - size % 64, n)
    decreases n
  {
    if n > 0 {
      if size >= Cut(n - 1) {
        GreedyRounds(at + Cut(n - 1), size - Cut(n - 1), n - 1);
        ModStep(size, Cut(n - 1));
      } else {
        GreedyRounds(at, size, n - 1);
      }
    }
  }

  lemma {:induction false} LadderTiling(at: nat, i: nat, q: nat)
    requires i <= q <= POWERS
    ensures var l := Ladder(at, i, q);
            && Tiling(l, at, at + Bytes(l)) && Bytes(l) + Cut(i) == Cut(q) && |l| == q - i
            && (forall k :: 0 <= k < |l| ==> l[k].free && l[k].power == i + k)
    decreases q - i
  {
    if i < q {
      LadderTiling(at + Cut(i), i + 1, q);
    }
  }

  lemma PiecesTiling(at: nat, p: nat, q: nat)
    requires p < q < POWERS
    ensures Tiling(Pieces(at, p, q), at, at + Cut(q)) && Bytes(Pieces(at, p, q)) == Cut(q)
    ensures forall t :: t in Pieces(at, p, q) ==> t.free && t.power < q
  {
    LadderTiling(at + Cut(p), p, q);
  }

  // ----- free lists

  lemma {:induction false} WithoutHas(s: seq<nat>, x: nat)
    requires Distinct(s)
    ensures Distinct(Without(s, x))
    ensures forall y :: y in Without(s, x) <==> y in s && y != x
  {
    if s != [] {
      WithoutHas(s[1..], x);
      var w := Without(s, x);
      assert forall k :: 0 < k < |s| ==> s[k] == s[1..][k - 1];
      if s[0] == x {
        forall y ensures y in w <==> y in s && y != x {
          assert y in s ==> y == s[0] || y in s[1..];
        }
      } else {
        assert s[0] !in s[1..];
        forall y ensures y in w <==> y in s && y != x {
          assert y in s ==> y == s[0] || y in s[1..];
        }
      }
    }
  }

  ghost predicate LocsUnique(ts: set<Tile>) {
    forall t, u :: t in ts && u in ts && t.loc == u.loc ==> t == u
  }

  lemma TilingUnique(tiles: seq<Tile>, at: nat, end: nat)
    requires Tiling(tiles, at, end)
    ensures LocsUnique(Set(tiles))
  {
    TilingBytes(tiles, at, end);
    forall t, u | t in Set(tiles) && u in Set(tiles) && t.loc == u.loc ensures t == u {
      var j :| 0 <= j < |tiles| && tiles[j] == t;
      var k :| 0 <= k < |tiles| && tiles[k] == u;
      assert !(j < k) && !(k < j);
    }
  }

  lemma CoversDrop(lists: seq<seq<nat>>, ts: set<Tile>, t: Tile)
    requires Covers(lists, ts) && LocsUnique(ts) && t in ts && t.free
    ensures Covers(DropFree(lists, t), ts - {t})
  {
    WithoutHas(lists[t.power], t.loc);
    var ls := DropFree(lists, t);
    forall p, x | 0 <= p < POWERS && x in ls[p] ensures Tile(x, p, true) in ts - {t} {
      assert x in lists[p];
    }
  }

  lemma CoversUsed(lists: seq<seq<nat>>, ts: set<Tile>, t: Tile)
    requires Covers(lists, ts) && !t.free
    ensures Covers(lists, ts - {t}) && Covers(lists, ts + {t})
  {
  }

  lemma CoversPush(lists: seq<seq<nat>>, ts: set<Tile>, t: Tile)
    requires Covers(lists, ts) && t.free && t.power < POWERS && forall u :: u in ts ==> u.loc != t.loc
    ensures Covers(PushFree(lists, t), ts + {t})
  {
    var ls := PushFree(lists, t);
    forall p, x | 0 <= p < POWERS && x in ls[p] ensures Tile(x, p, true) in ts + {t} {
      assert (p == t.power && x == t.loc) || x in lists[p];
    }
    forall u | u in ts + {t} && u.free ensures u.power < POWERS && u.loc in ls[u.power] {
      if u.power == t.power {
        assert ls[u.power] == [t.loc] + lists[u.power];
      }
    }
  }

  lemma CoversAppend(lists: seq<seq<nat>>, ts: set<Tile>, t: Tile)
    requires Covers(lists, ts) && t.free && t.power < POWERS && forall u :: u in ts ==> u.loc != t.loc
    ensures Covers(lists[t.power := lists[t.power] + [t.loc]], ts + {t})
  {
    var ls := lists[t.power := lists[t.power] + [t.loc]];
    forall p, x | 0 <= p < POWERS && x in ls[p] ensures Tile(x, p, true) in ts + {t} {
      assert (p == t.power && x == t.loc) || x in lists[p];
    }
    forall u | u in ts + {t} && u.free ensures u.power < POWERS && u.loc in ls[u.power] {
      if u.power == t.power {
        assert ls[u.power] == lists[u.power] + [t.loc];
      }
    }
  }

  ghost predicate LocsApart(tiles: seq<Tile>) {
    forall j, k :: 0 <= j < k < |tiles| ==> tiles[j].loc != tiles[k].loc
  }

  lemma {:induction false} DropAllCovers(lists: seq<seq<nat>>, ts: set<Tile>, run: seq<Tile>)
    requires Covers(lists, ts) && LocsUnique(ts) && Set(run) <= ts && LocsApart(run)
    ensures Covers(DropAll(lists, run), ts - Set(run))
    decreases |run|
  {
    if run != [] {
      var t, rest := run[0], run[1..];
      assert forall k :: 0 <= k < |rest| ==> rest[k] == run[k + 1];
      assert t !in rest && run == [t] + rest;
      assert t in Set(run) && Set(rest) <= Set(run) - {t};
      if t.free {
        CoversDrop(lists, ts, t);
        DropAllCovers(DropFree(lists, t), ts - {t}, rest);
      } else {
        CoversUsed(lists, ts, t);
        DropAllCovers(lists, ts - {t}, rest);
      }
      assert (ts - {t}) - Set(rest) == ts - Set(run);
    } else {
      assert ts - Set(run) == ts;
    }
  }

  ghost predicate AllFresh(tiles: seq<Tile>, ts: set<Tile>) {
    && LocsApart(tiles)
    && (forall t :: t in tiles ==> t.free && t.power < POWERS)
    && (forall t, u :: t in tiles && u in ts ==> u.loc != t.loc)
  }

  lemma FreshTail(tiles: seq<Tile>, ts: set<Tile>)
    requires AllFresh(tiles, ts) && tiles != []
    ensures AllFresh(tiles[1..], ts + {tiles[0]})
    ensures ts + {tiles[0]} + Set(tiles[1..]) == ts + Set(tiles)
  {
    var rest := tiles[1..];
    assert forall k :: 0 <= k < |rest| ==> rest[k] == tiles[k + 1];
    assert tiles == [tiles[0]] + rest;
  }

  lemma {:induction false} PushAllCovers(lists: seq<seq<nat>>, ts: set<Tile>, tiles: seq<Tile>)
    requires Covers(lists, ts) && AllFresh(tiles, ts)
    ensures Covers(PushAll(lists, tiles), ts + Set(tiles))
    decreases |tiles|
  {
    if tiles != [] {
      FreshTail(tiles, ts);
      CoversPush(lists, ts, tiles[0]);
      PushAllCovers(PushFree(lists, tiles[0]), ts + {tiles[0]}, tiles[1..]);
    } else {
      assert ts + Set(tiles) == ts;
    }
  }

  lemma {:induction false} AppendAllCovers(lists: seq<seq<nat>>, ts: set<Tile>, tiles: seq<Tile>)
    requires Covers(lists, ts) && AllFresh(tiles, ts)
    ensures Covers(AppendAll(lists, tiles), ts + Set(tiles))
    decreases |tiles|
  {
    if tiles != [] {
      FreshTail(tiles, ts);
      CoversAppend(lists, ts, tiles[0]);
      var t := tiles[0];
      AppendAllCovers(lists[t.power := lists[t.power] + [t.loc]], ts + {t}, tiles[1..]);
    } else {
      assert ts + Set(tiles) == ts;
    }
  }

  // ----- every operation keeps the block valid

  lemma TilingApart(tiles: seq<Tile>, at: nat, end: nat)
    requires Tiling(tiles, at, end)
    ensures LocsApart(tiles)
  {
    TilingBytes(tiles, at, end);
  }

  lemma ApartConcat(a: seq<Tile>, b: seq<Tile>, c: seq<Tile>)
    requires LocsApart(a + b + c)
    ensures LocsApart(b)
    ensures forall j, k :: 0 <= j < |b| && 0 <= k < |a| ==> a[k].loc != b[j].loc
    ensures forall j, k :: 0 <= j < |b| && 0 <= k < |c| ==> c[k].loc != b[j].loc
  {
    var s := a + b + c;
    assert forall k :: 0 <= k < |b| ==> s[|a| + k] == b[k];
    assert forall k :: 0 <= k < |a| ==> s[k] == a[k];
    assert forall k :: 0 <= k < |c| ==> s[|a| + |b| + k] == c[k];
  }

  lemma SetConcat(a: seq<Tile>, b: seq<Tile>)
    ensures Set(a + b) == Set(a) + Set(b)
  {
  }

  /** The tiles of a middle stretch and those around it share no location. */
  lemma Apart3(a: seq<Tile>, b: seq<Tile>, c: seq<Tile>, at: nat, end: nat)
    requires Tiling(a + b + c, at, end)
    ensures LocsApart(b) && forall t, u :: t in b && u in Set(a) + Set(c) ==> u.loc != t.loc
    ensures Set(a + b + c) == Set(a) + Set(b) + Set(c)
    ensures Set(a + b + c) - Set(b) == Set(a) + Set(c)
  {
    hide Tiling, LocsApart;
    TilingApart(a + b + c, at, end);
    ApartConcat(a, b, c);
    SetConcat(a + b, c);
    SetConcat(a, b);
  }

  /** Replacing a stretch of tiles by free pieces that tile the same bytes. */
  lemma ReplaceFree(a: seq<Tile>, b: seq<Tile>, c: seq<Tile>, b': seq<Tile>, at: nat, end: nat)
    requires Tiling(a + b + c, at, end) && Tiling(b', at + Bytes(a), at + Bytes(a) + Bytes(b))
    requires forall t :: t in b' ==> t.free
    ensures Tiling(a + b' + c, at, end)
    ensures AllFresh(b', Set(a) + Set(c)) && Set(a) + Set(c) + Set(b') == Set(a + b' + c)
  {
    hide Tiling, Cut, Bytes, LocsApart;
    TilingReplace(a, b, c, b', at, end);
    Apart3(a, b', c, at, end);
    TilingBytes(b', at + Bytes(a), at + Bytes(a) + Bytes(b));
  }

  lemma FreedKeeps(s: Shape, k: nat, begin: nat, end: nat)
    requires Valid(s, begin, end) && k < |s.tiles| && end - begin < Cut(POWERS)
    ensures Valid(Freed(s, k), begin, end)
  {
    hide Tiling, Covers, Greedy, PushAll, DropAll, Cut, Bytes, Set, RunStart, RunEnd;
    var i, j := RunStart(s.tiles, k), RunEnd(s.tiles, k + 1);
    var a, b, c := s.tiles[..i], s.tiles[i..j], s.tiles[j..];
    assert s.tiles == a + b + c;
    RecutKeeps(s.lists, a, b, c, begin, end);
  }

  /** Any run of slots may be unlinked and cut again. */
  lemma RecutKeeps(lists: seq<seq<nat>>, a: seq<Tile>, b: seq<Tile>, c: seq<Tile>, begin: nat, end: nat)
    requires Tiling(a + b + c, begin, end) && Covers(lists, Set(a + b + c)) && b != [] && end - begin < Cut(POWERS)
    ensures var g := Greedy(b[0].loc, Bytes(b), POWERS);
            Tiling(a + g + c, begin, end) && Covers(PushAll(DropAll(lists, b), g), Set(a + g + c))
  {
    hide Tiling, Covers, Greedy, PushAll, DropAll, Cut, AllFresh, LocsApart, LocsUnique, Bytes, Set;
    RunTiling(a, b, c, begin, end);
    var g := Greedy(b[0].loc, Bytes(b), POWERS);
    GreedyTiling(b[0].loc, Bytes(b), POWERS);
    GreedyFree(b[0].loc, Bytes(b), POWERS);
    TilingUnique(a + b + c, begin, end);
    Apart3(a, b, c, begin, end);
    DropAllCovers(lists, Set(a + b + c), b);
    ReplaceFree(a, b, c, g, begin, end);
    PushAllCovers(DropAll(lists, b), Set(a) + Set(c), g);
  }

  lemma GreedyFree(at: nat, size: nat, n: nat)
    ensures forall t :: t in Greedy(at, size, n) ==> t.free
  {
    GreedyPowers(at, size, n);
  }

  lemma {:induction false} BytesMultiple(tiles: seq<Tile>)
    ensures Bytes(tiles) % 64 == 0
  {
    hide Cut;
    if tiles != [] {
      BytesMultiple(tiles[1..]);
      MultipleSum(Cut(tiles[0].power), Bytes(tiles[1..]));
    }
  }

  lemma MultipleSum(a: nat, b: nat)
    requires a % 64 == 0 && b % 64 == 0
    ensures (a + b) % 64 == 0
  {
  }

  lemma RunTiling(a: seq<Tile>, b: seq<Tile>, c: seq<Tile>, at: nat, end: nat)
    requires Tiling(a + b + c, at, end) && b != []
    ensures b[0].loc == at + Bytes(a) && Bytes(b) % 64 == 0 && Bytes(b) <= end - at
  {
    TilingConcat(a + b, c, at, end);
    TilingConcat(a, b, at, at + Bytes(a + b));
    BytesConcat(a + b, c);
    BytesConcat(a, b);
    BytesMultiple(b);
    TilingBytes(a + b + c, at, end);
  }

  lemma FilledValid(begin: nat, size: nat)
    requires 0 < begin && size < Cut(POWERS)
    ensures Valid(Filled(begin, size), begin, begin + (size - size % 64))
  {
    hide Tiling, Greedy, PushAll, Cut, AllFresh, LocsApart;
    var g := Greedy(begin, size, POWERS);
    GreedyTiling(begin, size, POWERS);
    GreedyFree(begin, size, POWERS);
    FreshAlone(g, begin, begin + (size - size % 64));
    assert Covers(NoLists(POWERS), {});
    PushAllCovers(NoLists(POWERS), {}, g);
    assert {} + Set(g) == Set(g);
  }

  lemma FreshAlone(g: seq<Tile>, at: nat, end: nat)
    requires Tiling(g, at, end) && forall t :: t in g ==> t.free
    ensures AllFresh(g, {})
  {
    hide Cut;
    TilingApart(g, at, end);
    TilingBytes(g, at, end);
  }

  /** A free list names tiles of the block. */
  lemma ListedTile(s: Shape, q: nat, begin: nat, end: nat)
    requires Valid(s, begin, end) && q < POWERS && s.lists[q] != []
    ensures var k := IndexOf(s.tiles, s.lists[q][0]);
            k < |s.tiles| && s.tiles[k] == Tile(s.lists[q][0], q, true)
  {
    hide Tiling;
    var t := Tile(s.lists[q][0], q, true);
    assert t in Set(s.tiles);
    TilingUnique(s.tiles, begin, end);
    assert t in s.tiles && t.loc == s.lists[q][0];
    var k := IndexOf(s.tiles, s.lists[q][0]);
    assert s.tiles[k] in Set(s.tiles);
  }

  /** Unlinking the head of a free list. */
  lemma CoversTail(lists: seq<seq<nat>>, ts: set<Tile>, q: nat)
    requires Covers(lists, ts) && q < POWERS && lists[q] != [] && LocsUnique(ts)
    ensures Covers(lists[q := lists[q][1..]], ts - {Tile(lists[q][0], q, true)})
  {
    var t := Tile(lists[q][0], q, true);
    assert t in ts;
    CoversDrop(lists, ts, t);
    assert Without(lists[q], t.loc) == lists[q][1..];
  }

  lemma SplitKeeps(s: Shape, p: nat, q: nat, begin: nat, end: nat)
    requires Valid(s, begin, end) && p < q < POWERS && s.lists[q] != []
    ensures IndexOf(s.tiles, s.lists[q][0]) < |s.tiles|
    ensures Valid(Split(s, p, q), begin, end)
  {
    hide Tiling, Covers, Cut, AllFresh, LocsApart, LocsUnique, Bytes, Set, Pieces, AppendAll, IndexOf;
    ListedTile(s, q, begin, end);
    CoversLength(s.lists, Set(s.tiles));
    var loc := s.lists[q][0];
    var k := IndexOf(s.tiles, loc);
    var t := s.tiles[k];
    var a, b, c, pieces := s.tiles[..k], [t], s.tiles[k + 1..], Pieces(loc, p, q);
    assert s.tiles == a + b + c;
    BytesOne(t);
    RunTiling(a, b, c, begin, end);
    PiecesTiling(loc, p, q);
    TilingUnique(s.tiles, begin, end);
    Apart3(a, b, c, begin, end);
    CoversTail(s.lists, Set(s.tiles), q);
    SetOne(t);
    ReplaceFree(a, b, c, pieces, begin, end);
    AppendAllCovers(s.lists[q := s.lists[q][1..]], Set(a) + Set(c), pieces);
  }

  lemma BytesOne(t: Tile)
    ensures Bytes([t]) == Cut(t.power)
  {
    assert [t][1..] == [];
  }

  lemma SetOne(t: Tile)
    ensures Set([t]) == {t}
  {
  }

  lemma CoversLength(lists: seq<seq<nat>>, ts: set<Tile>)
    requires Covers(lists, ts)
    ensures |lists| == POWERS
  {
  }

  lemma {:induction false} TilingMark(tiles: seq<Tile>, k: nat, at: nat, end: nat)
    requires Tiling(tiles, at, end) && k < |tiles|
    ensures Tiling(tiles[k := tiles[k].(free := false)], at, end)
  {
    var ts := tiles[k := tiles[k].(free := false)];
    if k == 0 {
      assert ts[1..] == tiles[1..];
    } else {
      TilingMark(tiles[1..], k - 1, tiles[0].End(), end);
      assert ts[1..] == tiles[1..][k - 1 := tiles[k].(free := false)];
    }
  }

  lemma TakenKeeps(s: Shape, p: nat, begin: nat, end: nat)
    requires Valid(s, begin, end) && p < POWERS && s.lists[p] != []
    ensures IndexOf(s.tiles, s.lists[p][0]) < |s.tiles|
    ensures Valid(Taken(s, p), begin, end)
  {
    hide Tiling, Covers, Cut, LocsUnique, IndexOf;
    ListedTile(s, p, begin, end);
    CoversLength(s.lists, Set(s.tiles));
    var k := IndexOf(s.tiles, s.lists[p][0]);
    var t, ts := s.tiles[k], s.tiles[k := s.tiles[k].(free := false)];
    TilingMark(s.tiles, k, begin, end);
    TilingUnique(s.tiles, begin, end);
    CoversTail(s.lists, Set(s.tiles), p);
    CoversUsed(s.lists[p := s.lists[p][1..]], Set(s.tiles) - {t}, t.(free := false));
    MarkSet(s.tiles, k, begin, end);
  }

  lemma MarkSet(tiles: seq<Tile>, k: nat, at: nat, end: nat)
    requires Tiling(tiles, at, end) && k < |tiles|
    ensures Set(tiles[k := tiles[k].(free := false)]) == Set(tiles) - {tiles[k]} + {tiles[k].(free := false)}
  {
    hide Tiling, Cut;
    TilingApart(tiles, at, end);
    var t := tiles[k];
    var ts := tiles[k := t.(free := false)];
    forall u ensures u in ts <==> (u in tiles && u != t) || u == t.(free := false) {
      if u in ts {
        var j :| 0 <= j < |ts| && ts[j] == u;
        assert j != k ==> tiles[j] == u;
      }
      if u in tiles && u != t {
        var j :| 0 <= j < |tiles| && tiles[j] == u;
        assert ts[j] == u;
      }
      assert ts[k] == t.(free := false);
    }
  }

  // ----- what callers rely on

  lemma HeadIn(s: seq<nat>)
    ensures s == [] || exists x :: x in s
  {
    assert s == [] || s[0] in s;
  }

  lemma EmptyCovers(ls: seq<seq<nat>>)
    requires Covers(ls, {})
    ensures ls == NoLists(POWERS)
  {
    forall p | 0 <= p < POWERS ensures ls[p] == [] {
      HeadIn(ls[p]);
    }
  }

  lemma WholeRun(tiles: seq<Tile>, k: nat)
    requires k < |tiles| && forall x :: 0 <= x < |tiles| && x != k ==> tiles[x].free
    ensures RunStart(tiles, k) == 0 && RunEnd(tiles, k + 1) == |tiles|
  {
  }

  /** Round trip: freeing the last used slot of a block, whatever the order and
      history of its allocations, leaves the block exactly as fillblock built it. */
  lemma RoundTrip(s: Shape, k: nat, begin: nat, size: nat)
    requires size < Cut(POWERS) && Valid(s, begin, begin + (size - size % 64))
    requires k < |s.tiles| && forall x :: 0 <= x < |s.tiles| && x != k ==> s.tiles[x].free
    ensures Freed(s, k) == Filled(begin, size)
  {
    hide Tiling, Covers, Greedy, PushAll, DropAll, Cut, LocsApart, LocsUnique, RunStart, RunEnd, Bytes;
    var end := begin + (size - size % 64);
    WholeRun(s.tiles, k);
    assert s.tiles[0..|s.tiles|] == s.tiles;
    TilingBytes(s.tiles, begin, end);
    FirstLoc(s.tiles, begin, end);
    GreedyRounds(begin, size, POWERS);
    TilingUnique(s.tiles, begin, end);
    TilingApart(s.tiles, begin, end);
    DropAllCovers(s.lists, Set(s.tiles), s.tiles);
    assert Set(s.tiles) - Set(s.tiles) == {};
    EmptyCovers(DropAll(s.lists, s.tiles));
    var g := Greedy(begin, Bytes(s.tiles), POWERS);
    assert s.tiles[..0] + g + s.tiles[|s.tiles|..] == g;
  }

  lemma FirstLoc(tiles: seq<Tile>, at: nat, end: nat)
    requires Tiling(tiles, at, end) && tiles != []
    ensures tiles[0].loc == at
  {
  }

  lemma {:induction false} GreedyTop(at: nat, size: nat, n: nat, p: nat)
    requires p < n && size >= Cut(p)
    ensures Greedy(at, size, n) != [] && Greedy(at, size, n)[0].power >= p
    decreases n
  {
    if size < Cut(n - 1) {
      assert p < n - 1;
      GreedyTop(at, size, n - 1, p);
    }
  }

  /** An allocation succeeds exactly when the block has a free slot that is large
      enough. */
  lemma FitsIff(s: Shape, p: nat, begin: nat, end: nat)
    requires Valid(s, begin, end) && p < POWERS
    ensures FirstFit(s.lists, p) < POWERS <==> exists t :: t in s.tiles && t.free && t.power >= p
  {
    hide Tiling, Cut;
    var q := FirstFit(s.lists, p);
    if q < POWERS {
      ListedTile(s, q, begin, end);
      assert s.tiles[IndexOf(s.tiles, s.lists[q][0])] in s.tiles;
    }
    if t :| t in s.tiles && t.free && t.power >= p {
      assert t in Set(s.tiles);
      assert s.lists[t.power] != [];
    }
  }

  /** A block just obtained for a request of class `p` can always meet it. */
  lemma FilledFits(begin: nat, size: nat, p: nat)
    requires 0 < begin && p < POWERS && Cut(p) <= size < Cut(POWERS)
    ensures FirstFit(Filled(begin, size).lists, p) < POWERS
  {
    hide Tiling, Greedy, PushAll, Cut;
    FilledValid(begin, size);
    var s := Filled(begin, size);
    GreedyTop(begin, size, POWERS, p);
    GreedyFree(begin, size, POWERS);
    assert s.tiles[0] in s.tiles && s.tiles[0].free && s.tiles[0].power >= p;
    FitsIff(s, p, begin, begin + (size - size % 64));
  }

  lemma {:induction false} BytesHas(tiles: seq<Tile>, k: nat)
    requires k < |tiles|
    ensures Cut(tiles[k].power) <= Bytes(tiles)
  {
    if k > 0 {
      BytesHas(tiles[1..], k - 1);
    }
  }

  /** What is given back can be used again, together with its free neighbours: a
      request that fits the bytes of the whole free run can be met. */
  lemma FreedFits(s: Shape, k: nat, p: nat, begin: nat, end: nat)
    requires Valid(s, begin, end) && k < |s.tiles| && end - begin < Cut(POWERS) && p < POWERS
    requires Cut(p) <= Bytes(s.tiles[RunStart(s.tiles, k)..RunEnd(s.tiles, k + 1)])
    ensures exists t :: t in Freed(s, k).tiles && t.free && t.power >= p
  {
    hide Tiling, Covers, Greedy, PushAll, DropAll, Cut, Bytes, Set, RunStart, RunEnd;
    var i, j := RunStart(s.tiles, k), RunEnd(s.tiles, k + 1);
    var run := s.tiles[i..j];
    var pieces := Greedy(run[0].loc, Bytes(run), POWERS);
    GreedyTop(run[0].loc, Bytes(run), POWERS, p);
    GreedyFree(run[0].loc, Bytes(run), POWERS);
    assert Freed(s, k).tiles[i] == pieces[0];
  }

  /** In particular a request of the class that was given back. */
  lemma FreedAgain(s: Shape, k: nat, begin: nat, end: nat)
    requires Valid(s, begin, end) && k < |s.tiles| && end - begin < Cut(POWERS)
    ensures exists t :: t in Freed(s, k).tiles && t.free && t.power >= s.tiles[k].power
  {
    hide Tiling, Covers, Freed, Cut, Bytes, RunStart, RunEnd;
    var i, j := RunStart(s.tiles, k), RunEnd(s.tiles, k + 1);
    TilingBytes(s.tiles, begin, end);
    BytesHas(s.tiles[i..j], k - i);
    FreedFits(s, k, s.tiles[k].power, begin, end);
  }
}
