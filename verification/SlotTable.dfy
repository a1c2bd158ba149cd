/** The poll-handler slot table (add_list_of_handlers in src/scheduler_registry.cpp):
    64 slots shared out among handlers by weight. */
module SlotTable {
  import opened Collections

  /** SCHED_TABLE_SIZE */
  const TABLE: nat := 64
  /** Weights, shares and their sums are 32-bit unsigned. */
  const UINT: nat := 0x1_0000_0000
  /** A slot with no handler of its own (pollNoWork). */
  const NO_WORK: int := -1

  function Sum(s: seq<nat>): nat {
    if s == [] then 0 else Sum(s[..|s| - 1]) + s[|s| - 1]
  }

  lemma {:induction false} SumSet(s: seq<nat>, i: nat, v: nat)
    requires i < |s|
    ensures Sum(s[i := v]) == Sum(s) - s[i] + v
  {
    var n := |s| - 1;
    if i < n {
      SumSet(s[..n], i, v);
      assert s[i := v][..n] == s[..n][i := v];
    } else {
      assert s[i := v][..n] == s[..n];
    }
  }

  lemma SumSnoc(s: seq<nat>, v: nat)
    ensures Sum(s + [v]) == Sum(s) + v
  {
    assert (s + [v])[..|s|] == s;
  }

  /** Some element is above one when the sum is above the length. */
  lemma {:induction false} SumOfOnes(s: seq<nat>)
    requires forall i :: 0 <= i < |s| ==> s[i] <= 1
    ensures Sum(s) <= |s|
  {
    if s != [] {
      SumOfOnes(s[..|s| - 1]);
    }
  }

  ghost predicate Positive(s: seq<nat>) {
    forall i :: 0 <= i < |s| ==> s[i] >= 1
  }

  // ----- how many slots each handler gets

  /** `r` is the whole number nearest to `x / total`, the larger of two: lround. */
  predicate Nearest(r: nat, x: nat, total: nat) {
    2 * r * total <= 2 * x + total < 2 * (r + 1) * total
  }

  /** lround of the handler's share of the table, but at least one; the product is
      32-bit and wraps. */
  function Share(weight: nat, total: nat): (r: nat)
    requires total > 0
    ensures r >= 1
    ensures Nearest(r, weight * TABLE % UINT, total) || (r == 1 && Nearest(0, weight * TABLE % UINT, total))
  {
    var x := weight * TABLE % UINT;
    var n := (2 * x + total) / (2 * total);
    DivNearest(x, total);
    if n == 0 then 1 else n
  }

  lemma DivNearest(x: nat, total: nat)
    requires total > 0
    ensures Nearest((2 * x + total) / (2 * total), x, total)
  {
    var n := (2 * x + total) / (2 * total);
    DivBounds(2 * x + total, 2 * total);
    assert 2 * n * total == n * (2 * total) && 2 * (n + 1) * total == (n + 1) * (2 * total);
  }

  lemma DivBounds(a: nat, b: nat)
    requires b > 0
    ensures a / b * b <= a < (a / b + 1) * b
  {
    assert a == a / b * b + a % b;
  }

  /** A weight that is part of the total has at most the whole table for its share. */
  lemma ShareFits(weight: nat, total: nat)
    requires 0 < total && weight <= total
    ensures 1 <= Share(weight, total) <= TABLE
  {
    var x := weight * TABLE % UINT;
    assert x <= weight * TABLE by { ModAtMost(weight * TABLE, UINT); }
    DivAtMost(2 * x + total, 2 * total);
  }

  lemma ModAtMost(x: nat, m: nat)
    requires m > 0
    ensures x % m <= x
  {
  }

  lemma DivAtMost(x: nat, m: nat)
    requires m > 0 && x < 65 * m
    ensures x / m <= 64
  {
  }

  ghost function AllShares(weights: seq<nat>, total: nat): (s: seq<nat>)
    requires total > 0
    ensures |s| == |weights| && forall i :: 0 <= i < |weights| ==> s[i] == Share(weights[i], total)
  {
    seq(|weights|, i requires 0 <= i < |weights| => Share(weights[i], total))
  }

  lemma {:induction false} SumAtMost(s: seq<nat>, most: nat)
    requires forall i :: 0 <= i < |s| ==> s[i] <= most
    ensures Sum(s) <= |s| * most
  {
    if s != [] {
      SumAtMost(s[..|s| - 1], most);
    }
  }

  lemma {:induction false} PartOfSum(s: seq<nat>, i: nat)
    requires i < |s|
    ensures s[i] <= Sum(s)
  {
    if i < |s| - 1 {
      PartOfSum(s[..|s| - 1], i);
    }
  }

  /** As long as the weights add up below 2^32, so do the shares of up to 64
      handlers. */
  lemma SharesAddUp(weights: seq<nat>)
    requires 0 < Sum(weights) < UINT && |weights| <= TABLE
    ensures Sum(AllShares(weights, Sum(weights))) < UINT
  {
    hide Sum, Share;
    var total := Sum(weights);
    var s := AllShares(weights, total);
    forall i | 0 <= i < |s| ensures s[i] <= TABLE {
      PartOfSum(weights, i);
      ShareFits(weights[i], total);
    }
    SumAtMost(s, TABLE);
  }

  lemma AddWraps(x: nat, y: nat)
    ensures (x % UINT + y) % UINT == (x + y) % UINT
  {
  }

  method Shares(weights: seq<nat>, total: nat) returns (slots: seq<nat>, totalSlots: nat)
    requires total > 0
    ensures slots == AllShares(weights, total) && Positive(slots) && totalSlots == Sum(slots) % UINT
  {
    hide Sum;
    slots, totalSlots := [], 0;
    SumNone();
    var i := 0;
    while i < |weights|
      invariant 0 <= i <= |weights| && |slots| == i && Positive(slots) && totalSlots == Sum(slots) % UINT
      invariant forall k :: 0 <= k < i ==> slots[k] == Share(weights[k], total)
    {
      SumSnoc(slots, Share(weights[i], total));
      AddWraps(Sum(slots), Share(weights[i], total));
      slots := slots + [Share(weights[i], total)];
      totalSlots := (totalSlots + Share(weights[i], total)) % UINT;
      i := i + 1;
    }
  }

  lemma SumNone()
    ensures Sum([]) == 0
  {
  }

  /** std::max_element: the first largest. */
  method Largest(slots: seq<nat>) returns (k: nat)
    requires slots != []
    ensures k < |slots| && forall i :: 0 <= i < |slots| ==> slots[i] <= slots[k]
  {
    k := 0;
    var i := 1;
    while i < |slots|
      invariant 1 <= i <= |slots| && k < i && forall j :: 0 <= j < i ==> slots[j] <= slots[k]
    {
      if slots[k] < slots[i] {
        k := i;
      }
      i := i + 1;
    }
  }

  /** What trimming leaves of the sum of the shares, which wraps too. */
  function Trimmed(sum: nat): nat {
    if sum % UINT <= TABLE then sum else sum - sum % UINT + TABLE
  }

  /** No share grows or is lost; what was trimmed is at most one below the largest
      that is left; and with at most 64 of them the 32-bit sum fits. */
  ghost predicate TrimmedFrom(slots: seq<nat>, slots0: seq<nat>) {
    && |slots| == |slots0| && Positive(slots)
    && (forall i :: 0 <= i < |slots| ==> slots[i] <= slots0[i])
    && (forall i, j :: 0 <= i < |slots| && 0 <= j < |slots| && slots[i] < slots0[i] ==> slots[j] <= slots[i] + 1)
    && (|slots0| <= TABLE ==> Sum(slots) == Trimmed(Sum(slots0)))
  }

  /** Trims the largest shares until their 32-bit sum fits; with at most 64 handlers
      it then does, and each keeps a slot. What is trimmed is at most one below the
      largest that is left. */
  method Trim(slots0: seq<nat>, totalSlots0: nat) returns (slots: seq<nat>)
    requires Positive(slots0) && totalSlots0 == Sum(slots0) % UINT
    ensures TrimmedFrom(slots, slots0)
  {
    slots := slots0;
    var totalSlots := totalSlots0;
    ghost var lost := Sum(slots0) - totalSlots0;
    while totalSlots > TABLE
      invariant |slots| == |slots0| && Positive(slots) && Sum(slots) == lost + totalSlots && lost >= 0
      invariant forall i :: 0 <= i < |slots| ==> slots[i] <= slots0[i]
      invariant forall i, j :: 0 <= i < |slots| && 0 <= j < |slots| && slots[i] < slots0[i] ==> slots[j] <= slots[i] + 1
      invariant totalSlots == totalSlots0 || (TABLE <= totalSlots <= totalSlots0)
    {
      var k := Largest(slots);
      if slots[k] <= 1 {
        SumOfOnes(slots);
        break;
      }
      SumSet(slots, k, slots[k] - 1);
      slots := slots[k := slots[k] - 1];
      totalSlots := totalSlots - 1;
    }
  }

  // ----- spreading the handlers over the table

  ghost function Count(t: seq<int>, h: int): nat {
    if t == [] then 0 else Count(t[..|t| - 1], h) + (if t[|t| - 1] == h then 1 else 0)
  }

  lemma {:induction false} CountSet(t: seq<int>, i: nat, v: int, h: int)
    requires i < |t|
    ensures Count(t[i := v], h) == Count(t, h) - (if t[i] == h then 1 else 0) + (if v == h then 1 else 0)
  {
    var n := |t| - 1;
    if i < n {
      CountSet(t[..n], i, v, h);
      assert t[i := v][..n] == t[..n][i := v];
    } else {
      assert t[i := v][..n] == t[..n];
    }
  }

  lemma {:induction false} CountNone(t: seq<int>, h: int)
    ensures Count(t, h) <= |t|
    ensures Count(t, h) > 0 ==> exists i :: 0 <= i < |t| && t[i] == h
    ensures (forall i :: 0 <= i < |t| ==> t[i] == h) ==> Count(t, h) == |t|
    ensures (forall i :: 0 <= i < |t| ==> t[i] != h) ==> Count(t, h) == 0
  {
    if t != [] {
      CountNone(t[..|t| - 1], h);
    }
  }

  /** How far the probe still has to go to slot `f`. */
  function Distance(index: nat, f: nat): nat {
    if f >= index then f - index else if f + TABLE >= index then f + TABLE - index else 0
  }

  /** The slot `t` places on, round the table. */
  function SlotAt(counter: nat, t: nat): (k: nat)
    ensures k < TABLE
  {
    (counter + t) % TABLE
  }

  /** The next empty slot at or after `start`, round the table: all before it are
      taken. */
  method Probe(table: array<int>, taken: array<bool>, start: nat) returns (index: nat)
    requires table.Length == TABLE && taken.Length == TABLE && start < TABLE
    requires forall k :: 0 <= k < TABLE ==> (taken[k] <==> table[k] != NO_WORK)
    requires Count(table[..], NO_WORK) > 0
    ensures index < TABLE && !taken[index]
    ensures !taken[start] ==> index == start
    ensures exists d: nat :: index == SlotAt(start, d) && forall e: nat :: e < d ==> taken[SlotAt(start, e)]
  {
    CountNone(table[..], NO_WORK);
    ghost var f :| 0 <= f < TABLE && table[f] == NO_WORK;
    index := start;
    ghost var d: nat := 0;
    while taken[index]
      invariant index < TABLE && index == SlotAt(start, d) && (d > 0 ==> taken[start])
      invariant forall e: nat :: e < d ==> taken[SlotAt(start, e)]
      decreases Distance(index, f)
    {
      index := (index + 1) % TABLE;
      d := d + 1;
    }
  }

  /** The `n`-th of slots that are `step` apart. */
  function Nth(from: nat, step: nat, n: nat): (k: nat)
    ensures k < TABLE
  {
    SlotAt(from, n * step)
  }

  /** With none taken the slots of a handler are `step` apart. */
  ghost predicate Even(table: seq<int>, h: int, from: nat, step: nat, n: nat) {
    |table| == TABLE && forall j: nat :: j < n ==> table[Nth(from, step, j)] == h
  }

  /** Every slot in use is one of the first `n` of them. */
  ghost predicate OnlyEven(table: seq<int>, from: nat, step: nat, n: nat) {
    |table| == TABLE &&
    forall k :: 0 <= k < TABLE && table[k] != NO_WORK ==> exists j: nat :: j < n && k == Nth(from, step, j)
  }

  lemma StepsApart(from: nat, step: nat, j: nat, n: nat)
    requires j < n && 1 <= step && (n + 1) * step <= TABLE
    ensures Nth(from, step, j) != Nth(from, step, n)
  {
    var d := (n - j) * step;
    assert 0 < d < TABLE by { MulBounds(j, n, step); }
    assert from + n * step == from + j * step + d;
  }

  lemma MulBounds(j: nat, n: nat, step: nat)
    requires j < n && 1 <= step
    ensures 0 < (n - j) * step <= n * step && (n + 1) * step == n * step + step
  {
  }

  lemma NextEven(from: nat, step: nat, n: nat)
    ensures (Nth(from, step, n) + step) % TABLE == Nth(from, step, n + 1)
  {
    assert (n + 1) * step == n * step + step;
    AddRound(from + n * step, step);
  }

  lemma AddRound(x: nat, y: nat)
    ensures (x % TABLE + y) % TABLE == (x + y) % TABLE
  {
  }

  /** There is room for one more. */
  predicate Fits(step: nat, n: nat) {
    1 <= step && (n + 1) * step <= TABLE
  }

  lemma EvenMore(table: seq<int>, h: int, from: nat, step: nat, n: nat)
    requires Even(table, h, from, step, n) && OnlyEven(table, from, step, n) && h != NO_WORK
    requires Fits(step, n)
    ensures table[Nth(from, step, n)] == NO_WORK
    ensures var t := table[Nth(from, step, n) := h]; Even(t, h, from, step, n + 1) && OnlyEven(t, from, step, n + 1)
  {
    hide Nth;
    forall j: nat | j < n ensures Nth(from, step, j) != Nth(from, step, n) {
      StepsApart(from, step, j, n);
    }
  }

  lemma StepFits(want: nat, n: nat)
    requires 1 <= want <= TABLE && n < want
    ensures Fits(TABLE / want, n)
  {
    DivBounds(TABLE, want);
    var step := TABLE / want;
    PartOf(n + 1, want, step);
  }

  lemma PartOf(a: nat, b: nat, step: nat)
    requires a <= b
    ensures a * step <= b * step && (step == 0 ==> (step + 1) * b == b)
  {
  }

  /** The slots given out so far: handler `h` has as many as `given` says. */
  ghost predicate Spread(table: seq<int>, given: seq<nat>) {
    && |table| == TABLE
    && (forall h :: 0 <= h < |given| ==> Count(table, h) == given[h])
    && (forall k :: 0 <= k < TABLE ==> table[k] == NO_WORK || 0 <= table[k] < |given|)
    && Count(table, NO_WORK) + Sum(given) == TABLE
  }

  lemma SpreadOne(table: seq<int>, given: seq<nat>, index: nat, h: nat)
    requires Spread(table, given) && h < |given| && index < TABLE && table[index] == NO_WORK
    ensures Spread(table[index := h], given[h := given[h] + 1])
  {
    SumSet(given, h, given[h] + 1);
    CountSet(table, index, h, NO_WORK);
    var table', given' := table[index := h as int], given[h := given[h] + 1];
    forall j | 0 <= j < |given| ensures Count(table', j) == given'[j] {
      CountSet(table, index, h, j);
    }
  }

  lemma SpreadNone(table: seq<int>, n: nat)
    requires |table| == TABLE && forall k :: 0 <= k < TABLE ==> table[k] == NO_WORK
    ensures Spread(table, Zeros(n)) && Sum(Zeros(n)) == 0
  {
    CountNone(table, NO_WORK);
    forall h | 0 <= h < n ensures Count(table, h) == 0 {
      CountNone(table, h);
    }
    SumZeros(n);
  }

  ghost function Zeros(n: nat): (s: seq<nat>)
    ensures |s| == n && forall i :: 0 <= i < n ==> s[i] == 0
  {
    seq(n, i => 0)
  }

  lemma {:induction false} SumZeros(n: nat)
    ensures Sum(Zeros(n)) == 0
  {
    if n > 0 {
      SumZeros(n - 1);
      assert Zeros(n)[..n - 1] == Zeros(n - 1);
    }
  }

  /** Gives handler `h` the next empty slot at or after `start`. */
  method PlaceOne(table: array<int>, taken: array<bool>, h: nat, start: nat) returns (index: nat)
    requires table.Length == TABLE && taken.Length == TABLE && start < TABLE
    requires forall k :: 0 <= k < TABLE ==> (taken[k] <==> table[k] != NO_WORK)
    requires Count(table[..], NO_WORK) > 0
    modifies table, taken
    ensures index < TABLE && old(table[index]) == NO_WORK && table[..] == old(table[..])[index := h as int]
    ensures forall k :: 0 <= k < TABLE ==> (taken[k] <==> table[k] != NO_WORK)
    ensures old(table[start]) == NO_WORK ==> index == start
  {
    hide Count;
    index := Probe(table, taken, start);
    table[index], taken[index] := h, true;
  }

  /** Gives `want` slots to handler `h`, spread from `from` on; fewer only if the
      table fills up. */
  method Place(table: array<int>, taken: array<bool>, h: nat, want: nat, from: nat, totalTaken: nat,
               ghost given: seq<nat>)
    returns (total: nat, ghost after: seq<nat>)
    requires table.Length == TABLE && taken.Length == TABLE && from < TABLE && want >= 1
    requires h < |given| && given[h] == 0 && Spread(table[..], given) && totalTaken == Sum(given)
    requires forall k :: 0 <= k < TABLE ==> (taken[k] <==> table[k] != NO_WORK)
    modifies table, taken
    ensures Spread(table[..], after) && total == Sum(after)
    ensures forall k :: 0 <= k < TABLE ==> (taken[k] <==> table[k] != NO_WORK)
    ensures |after| == |given| && after == given[h := after[h]] && after[h] <= want
    ensures after[h] == want || total == TABLE
    ensures totalTaken < TABLE ==> after[h] >= 1
    ensures forall k :: 0 <= k < TABLE && old(table[k]) != NO_WORK ==> table[k] == old(table[k])
    ensures totalTaken == 0 && want <= TABLE ==> Even(table[..], h, from, TABLE / want, want)
  {
    hide Sum, Count, Even, OnlyEven, SlotAt, Nth, Fits;
    ghost var even := totalTaken == 0 && want <= TABLE;
    if even {
      NoneTaken(table[..], given, h, from, TABLE / want);
    }
    var remaining: nat, step: nat, index: nat := want, TABLE / want, from;
    total, after := totalTaken, given;
    assert given[h := given[h]] == given;
    SpreadBound(table[..], given);
    while remaining > 0
      invariant remaining <= want && index < TABLE && total <= TABLE
      invariant Spread(table[..], after) && total == Sum(after)
      invariant forall k :: 0 <= k < TABLE ==> (taken[k] <==> table[k] != NO_WORK)
      invariant |after| == |given| && after == given[h := after[h]] && after[h] == want - remaining
      invariant totalTaken < TABLE && remaining == want ==> total < TABLE
      invariant total == totalTaken + (want - remaining)
      invariant forall k :: 0 <= k < TABLE && old(table[k]) != NO_WORK ==> table[k] == old(table[k])
      invariant even ==> index == Nth(from, step, want - remaining)
      invariant even ==> Even(table[..], h, from, step, want - remaining)
      invariant even ==> OnlyEven(table[..], from, step, want - remaining)
    {
      if total >= TABLE {
        break;
      }
      SpreadBound(table[..], after);
      ghost var start, n := index, want - remaining;
      if even {
        StepFits(want, n);
        EvenMore(table[..], h, from, step, n);
        NextEven(from, step, n);
      }
      ghost var was := table[..];
      index := PlaceOne(table, taken, h, index);
      SpreadOne(was, after, index, h);
      SumSet(after, h, after[h] + 1);
      after := after[h := after[h] + 1];
      total := total + 1;
      remaining := remaining - 1;
      index := (index + step) % TABLE;
      SpreadBound(table[..], after);
    }
  }

  lemma NoneTaken(table: seq<int>, given: seq<nat>, h: int, from: nat, step: nat)
    requires Spread(table, given) && Sum(given) == 0 && from < TABLE
    ensures Even(table, h, from, step, 0) && OnlyEven(table, from, step, 0) && from == Nth(from, step, 0)
  {
    CountFull(table, NO_WORK);
  }

  lemma {:induction false} CountFull(t: seq<int>, h: int)
    requires Count(t, h) == |t|
    ensures forall i :: 0 <= i < |t| ==> t[i] == h
  {
    if t != [] {
      CountNone(t[..|t| - 1], h);
      CountFull(t[..|t| - 1], h);
    }
  }

  lemma SpreadBound(table: seq<int>, given: seq<nat>)
    requires Spread(table, given)
    ensures Sum(given) <= TABLE && Count(table, NO_WORK) == TABLE - Sum(given)
  {
  }

  /** The first `h` handlers have their slots, or the table is full. */
  ghost predicate Progress(given: seq<nat>, want: seq<nat>, h: nat) {
    && |given| == |want| && h <= |want|
    && (forall i :: h <= i < |want| ==> given[i] == 0)
    && (forall i :: 0 <= i < h ==> given[i] <= want[i])
    && ((forall i :: 0 <= i < h ==> given[i] == want[i]) || Sum(given) == TABLE)
  }

  lemma ProgressStep(given: seq<nat>, want: seq<nat>, h: nat, after: seq<nat>)
    requires Progress(given, want, h) && h < |want| && |after| == |given| && after == given[h := after[h]]
    requires after[h] <= want[h] && (after[h] == want[h] || Sum(after) == TABLE) && Sum(after) <= TABLE
    ensures Progress(after, want, h + 1)
  {
    SumSet(given, h, after[h]);
    hide Sum;
  }

  /** Spreads every handler over the table, first come first served. */
  method Fill(want: seq<nat>) returns (slots: seq<int>, ghost given: seq<nat>)
    requires Positive(want)
    ensures Spread(slots, given) && Progress(given, want, |want|)
    ensures want != [] && want[0] <= TABLE ==> Even(slots, 0, 0, TABLE / want[0], want[0])
  {
    hide Sum, Count, Progress, Even, SlotAt;
    SumZeros(|want|);
    var table := new int[TABLE](i => NO_WORK);
    var taken := new bool[TABLE](i => false);
    given := Zeros(|want|);
    SpreadNone(table[..], |want|);
    NoProgress(want);
    var current: nat, totalTaken: nat, h: nat := 0, 0, 0;
    while h < |want|
      invariant 0 <= h <= |want| && current < TABLE && |given| == |want|
      invariant Spread(table[..], given) && totalTaken == Sum(given) && Progress(given, want, h)
      invariant h == 0 ==> current == 0 && totalTaken == 0
      invariant h > 0 && want[0] <= TABLE ==> Even(table[..], 0, 0, TABLE / want[0], want[0])
      invariant forall k :: 0 <= k < TABLE ==> (taken[k] <==> table[k] != NO_WORK)
    {
      NotYet(given, want, h);
      ghost var was, before := given, table[..];
      totalTaken, given := Place(table, taken, h, want[h], current, totalTaken, given);
      SpreadBound(table[..], given);
      ProgressStep(was, want, h, given);
      if h > 0 && want[0] <= TABLE {
        EvenStays(before, table[..], 0, 0, TABLE / want[0], want[0]);
      }
      current := (current + 1) % TABLE;
      h := h + 1;
    }
    slots := table[..];
  }

  lemma EvenStays(a: seq<int>, b: seq<int>, h: nat, from: nat, step: nat, n: nat)
    requires Even(a, h, from, step, n) && |b| == TABLE
    requires forall k :: 0 <= k < TABLE && a[k] != NO_WORK ==> b[k] == a[k]
    ensures Even(b, h, from, step, n)
  {
  }

  lemma NoProgress(want: seq<nat>)
    ensures Progress(Zeros(|want|), want, 0)
  {
  }

  lemma NotYet(given: seq<nat>, want: seq<nat>, h: nat)
    requires Progress(given, want, h) && h < |want|
    ensures given[h] == 0
  {
  }

  /** add_list_of_handlers. Nothing is built for handlers whose 32-bit total weight is
      zero. Otherwise each has a trimmed share of at least one slot, `slots`, and gets
      `given` of it; no slot is given twice. With at most 64 handlers all get exactly
      their trimmed shares if and only if the shares add up below 2^32. The slots of
      the first handler are evenly spaced. */
  method BuildTable(weights: seq<nat>) returns (r: Option<seq<int>>, ghost slots: seq<nat>, ghost given: seq<nat>)
    ensures r.None? <==> Sum(weights) % UINT == 0
    ensures r.Some? ==> |slots| == |weights| && Spread(r.value, given) && Progress(given, slots, |weights|)
    ensures r.Some? ==> TrimmedFrom(slots, AllShares(weights, Sum(weights) % UINT))
    ensures r.Some? && weights != [] && slots[0] <= TABLE ==> Even(r.value, 0, 0, TABLE / slots[0], slots[0])
    ensures r.Some? && |weights| <= TABLE ==>
              (given == slots <==> Sum(AllShares(weights, Sum(weights) % UINT)) < UINT)
  {
    hide Sum, Count, Share, Spread, Progress, Even;
    var total := Total(weights);
    slots, given := [], [];
    if total == 0 {
      return None, [], [];
    }
    var shares, totalSlots := Shares(weights, total);
    var want := Trim(shares, totalSlots);
    slots := want;
    var table;
    table, given := Fill(want);
    if |weights| <= TABLE {
      GivenIff(table, given, want, Sum(shares));
    }
    r := Some(table);
  }

  lemma GivenIff(table: seq<int>, given: seq<nat>, want: seq<nat>, sum: nat)
    requires Spread(table, given) && Progress(given, want, |want|) && Sum(want) == Trimmed(sum)
    ensures given == want <==> sum < UINT
  {
    hide Sum, Count;
    SpreadBound(table, given);
    if sum < UINT {
      AllGiven(given, want);
    }
  }

  /** Shares that fit the table and fill it as far as they go are all met. */
  lemma {:induction false} AllGiven(given: seq<nat>, want: seq<nat>)
    requires |given| == |want| && forall i :: 0 <= i < |given| ==> given[i] <= want[i]
    requires (forall i :: 0 <= i < |given| ==> given[i] == want[i]) || Sum(given) >= Sum(want)
    ensures given == want
  {
    if given != [] {
      var n := |given| - 1;
      SumLess(given[..n], want[..n]);
      AllGiven(given[..n], want[..n]);
      assert given == given[..n] + [given[n]] && want == want[..n] + [want[n]];
    }
  }

  lemma {:induction false} SumLess(a: seq<nat>, b: seq<nat>)
    requires |a| == |b| && forall i :: 0 <= i < |a| ==> a[i] <= b[i]
    ensures Sum(a) <= Sum(b)
  {
    if a != [] {
      SumLess(a[..|a| - 1], b[..|b| - 1]);
    }
  }

  method Total(weights: seq<nat>) returns (total: nat)
    ensures total == Sum(weights) % UINT
  {
    hide Sum;
    total := 0;
    SumNone();
    var i := 0;
    while i < |weights|
      invariant 0 <= i <= |weights| && total == Sum(weights[..i]) % UINT
    {
      SumSnoc(weights[..i], weights[i]);
      AddWraps(Sum(weights[..i]), weights[i]);
      assert weights[..i] + [weights[i]] == weights[..i + 1];
      total := (total + weights[i]) % UINT;
      i := i + 1;
    }
    assert weights[..i] == weights;
  }

  lemma SumFour(s: seq<nat>)
    requires |s| == 4
    ensures Sum(s) == s[0] + s[1] + s[2] + s[3]
  {
    hide Sum;
    assert s == s[..2] + [s[2]] + [s[3]];
    SumSnoc(s[..2] + [s[2]], s[3]);
    SumSnoc(s[..2], s[2]);
    SumTwo(s[..2]);
  }

  lemma DefaultRounded()
    ensures AllShares([16, 1, 16, 64], 97) == [11, 1, 11, 42]
  {
    assert Share(16, 97) == 11 && Share(1, 97) == 1 && Share(64, 97) == 42;
  }

  /** The default weights: the thread queue, the node and local priority queues and
      the network get 11, 1, 11 and 41 of the 64 slots. */
  lemma DefaultShares(slots: seq<nat>)
    requires TrimmedFrom(slots, AllShares([16, 1, 16, 64], 97))
    ensures Sum([16, 1, 16, 64]) == 97 && slots == [11, 1, 11, 41]
  {
    hide Sum, Share, AllShares;
    DefaultRounded();
    SumFour([16, 1, 16, 64]);
    SumFour([11, 1, 11, 42]);
    SumFour(slots);
  }

  /** Two handlers whose weights add up to 2^32 + 1, and their shares to 2^32 + 64: the
      32-bit sums are 1 and 64, nothing is trimmed, and the shares cannot be met. */
  lemma SharesWrap()
    ensures var weights: seq<nat> := [0x200_0000, 0xFE00_0001];
            Sum(weights) % UINT == 1 && Sum(AllShares(weights, 1)) == UINT + TABLE
  {
    var weights: seq<nat> := [0x200_0000, 0xFE00_0001];
    SumTwo(weights);
    SumTwo(AllShares(weights, 1));
  }

  lemma SumTwo(s: seq<nat>)
    requires |s| == 2
    ensures Sum(s) == s[0] + s[1]
  {
    assert s == [] + [s[0]] + [s[1]];
    SumSnoc([], s[0]);
    SumSnoc([] + [s[0]], s[1]);
  }

  /** A handler with a slot is met by every sweep of the whole table, wherever the
      sweep starts. */
  lemma SweepMeets(table: seq<int>, h: int, counter: nat)
    requires |table| == TABLE && Count(table, h) > 0
    ensures exists t: nat :: t < TABLE && table[SlotAt(counter, t)] == h
  {
    CountNone(table, h);
    var i: nat :| i < TABLE && table[i] == h;
    var t: nat := (i - counter) % TABLE;
    assert SlotAt(counter, t) == i;
  }
}
