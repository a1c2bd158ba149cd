/** The power-of-two size classes that the shared-memory pool (kCutOffPoints)
    and the mempool (cutOffPoints) share: 64 bytes to 1 GiB. */
module SizeClasses {

  const CLASSES: nat := 25

  const POINTS: seq<nat> := [
    64, 128, 256, 512, 1024, 2048, 4096, 8192, 16384, 32768,
    65536, 131072, 262144, 524288, 1048576, 2097152, 4194304,
    8388608, 16777216, 33554432, 67108864, 134217728,
    268435456, 536870912, 1073741824]

  /** Bytes in size class `p`. */
  function Cut(p: nat): (c: nat)
    ensures c >= 64 && c % 64 == 0
  {
    if p == 0 then 64 else 2 * Cut(p - 1)
  }

  /** The first class from `p` on that holds `size` bytes; CLASSES if none does. */
  function ClassFrom(size: nat, p: nat): (r: nat)
    requires p <= CLASSES
    ensures p <= r <= CLASSES
    ensures r < CLASSES ==> size <= Cut(r)
    ensures forall q :: p <= q < r ==> Cut(q) < size
    decreases CLASSES - p
  {
    if p == CLASSES || size <= Cut(p) then p else ClassFrom(size, p + 1)
  }

  function ClassOf(size: nat): (r: nat)
    ensures r <= CLASSES
    ensures r < CLASSES ==> size <= Cut(r)
    ensures forall q :: 0 <= q < r ==> Cut(q) < size
  {
    ClassFrom(size, 0)
  }

  lemma {:induction false} CutIncreases(p: nat, q: nat)
    requires p < q
    ensures Cut(p) < Cut(q)
  {
    if p < q - 1 {
      CutIncreases(p, q - 1);
    }
  }

  lemma {:induction false} CutValues(p: nat)
    requires p < CLASSES
    ensures POINTS[p] == Cut(p)
  {
    if p > 0 {
      CutValues(p - 1);
      assert POINTS[p] == 2 * POINTS[p - 1];
    }
  }

  /** A slot of exactly class `p` is put back into class `p`. */
  lemma ClassOfCut(p: nat)
    requires p < CLASSES
    ensures ClassOf(Cut(p)) == p
  {
    var r := ClassOf(Cut(p));
    assert r <= p;
    if r < p {
      CutIncreases(r, p);
    }
  }

  /** A size between two neighbouring classes belongs to the upper one. */
  lemma ClassOfBetween(size: nat, p: nat)
    requires 0 < p < CLASSES && Cut(p - 1) < size <= Cut(p)
    ensures ClassOf(size) == p
  {
    var r := ClassOf(size);
    assert r <= p;
    if r < p - 1 {
      CutIncreases(r, p - 1);
    }
  }

  /** which_pow2: the linear scan over the table. */
  method WhichPow2(size: nat) returns (i: nat)
    ensures i == ClassOf(size)
  {
    i := 0;
    while i < CLASSES
      invariant i <= CLASSES
      invariant ClassFrom(size, 0) == ClassFrom(size, i)
    {
      CutValues(i);
      if size <= POINTS[i] {
        return;
      }
      i := i + 1;
    }
  }
}
