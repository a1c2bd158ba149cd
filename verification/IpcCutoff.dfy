/** How large a message may use the shared-memory pool (initSegmentSize_ in
    src/cmi-shmem-common.h). */
module IpcCutoff {
  import opened Collections
  import opened SizeClasses
  import opened IpcPool

  /** sizeof(CmiChunkHeader) */
  const CHUNK_HEADER: nat := 32
  const DEFAULT_SEGMENT: nat := 8 * 1024 * 1024
  const DEFAULT_CUTOFF: nat := 32 * 1024
  const WORDS: nat := 0x1_0000_0000_0000_0000

  /** A CmiInt8 as a std::size_t. */
  function Unsigned(value: int): nat {
    value % WORDS
  }

  /** The cutoff for the given ++ipcpoolsize and ++ipccutoff, if any; None where the
      program refuses to start. */
  method InitCutoff(poolSize: Option<int>, wanted: Option<int>) returns (cutoff: Option<nat>)
    ensures cutoff.None? <==>
              (poolSize.Some? && Unsigned(poolSize.value) == 0)
              || (wanted.Some? && Unsigned(wanted.value) > Cut(CLASSES - 1))
    ensures cutoff.Some? ==> exists p :: 0 <= p <= RET_BINS - 2 && cutoff.value == Cut(p)
    ensures cutoff.Some? && wanted.Some? ==> cutoff.value >= Unsigned(wanted.value) || cutoff.value == Cut(RET_BINS - 2)
    ensures cutoff.Some? && wanted.Some? ==> forall q: nat :: Cut(q) < cutoff.value ==> Cut(q) < Unsigned(wanted.value)
    ensures cutoff.Some? && wanted.None? ==>
              ByCapacity(cutoff.value, if poolSize.Some? then Unsigned(poolSize.value) else DEFAULT_SEGMENT)
  {
    hide Cut, ByCapacity;
    var segment := if poolSize.Some? then Unsigned(poolSize.value) else DEFAULT_SEGMENT;
    if segment == 0 {
      return None;
    }
    if wanted.Some? {
      var bin := WhichPow2(Unsigned(wanted.value));
      InTable(Unsigned(wanted.value));
      if bin >= CLASSES {
        return None;
      }
      if bin > RET_BINS - 2 {
        bin := RET_BINS - 2;
      }
      LeastClass(Unsigned(wanted.value), bin);
      return Some(Cut(bin));
    }
    var bin := WhichPow2(segment / CLASSES);
    var byCapacity := Cut(if bin >= 1 then bin - 1 else 0);
    DefaultIs();
    cutoff := Some(if byCapacity < DEFAULT_CUTOFF then byCapacity else DEFAULT_CUTOFF);
    if byCapacity < DEFAULT_CUTOFF {
      Smaller(if bin >= 1 then bin - 1 else 0);
    }
    CapacityIs(segment, bin, byCapacity);
  }

  /** The default: the largest class, up to DEFAULT_CUTOFF, that stays under a 25th of
      the segment; the smallest one if none does. */
  predicate ByCapacity(cutoff: nat, segment: nat) {
    && cutoff <= DEFAULT_CUTOFF && (cutoff < segment / CLASSES || cutoff == Cut(0))
    && (cutoff == DEFAULT_CUTOFF || 2 * cutoff >= segment / CLASSES)
  }

  lemma CapacityIs(segment: nat, bin: nat, byCapacity: nat)
    requires bin == ClassOf(segment / CLASSES) && byCapacity == Cut(if bin >= 1 then bin - 1 else 0)
    ensures ByCapacity(if byCapacity < DEFAULT_CUTOFF then byCapacity else DEFAULT_CUTOFF, segment)
  {
    DefaultIs();
    CutLeast(if bin >= 1 then bin - 1 else 0);
    if bin >= 1 {
      assert Cut(bin) == 2 * Cut(bin - 1);
    }
    hide Cut;
    if bin == CLASSES {
      CutAtLeast(CLASSES - 1);
    }
  }

  lemma CutLeast(p: nat)
    ensures Cut(0) == 64 <= Cut(p)
  {
  }

  lemma CutAtLeast(p: nat)
    requires p >= 9
    ensures Cut(p) >= DEFAULT_CUTOFF
  {
    DefaultIs();
    hide Cut;
    if p > 9 {
      CutIncreases(9, p);
    }
  }

  lemma LeastClass(size: nat, bin: nat)
    requires bin <= ClassOf(size)
    ensures forall q: nat :: Cut(q) < Cut(bin) ==> Cut(q) < size
  {
    hide Cut;
    forall q: nat | Cut(q) < Cut(bin) ensures Cut(q) < size {
      if q > bin {
        CutIncreases(bin, q);
      }
    }
  }

  lemma InTable(size: nat)
    ensures ClassOf(size) >= CLASSES <==> size > Cut(CLASSES - 1)
  {
    var r := ClassOf(size);
    if r < CLASSES - 1 {
      CutIncreases(r, CLASSES - 1);
    }
  }

  lemma DefaultIs()
    ensures DEFAULT_CUTOFF == Cut(9)
  {
    CutValues(9);
  }

  lemma Smaller(p: nat)
    requires Cut(p) < DEFAULT_CUTOFF
    ensures p < 9
  {
    hide Cut;
    DefaultIs();
    if p > 9 {
      CutIncreases(9, p);
    }
  }

  /** Whatever cutoff the program starts with, a message at it still fits, with its
      chunk header, a block size that the free lists cover. */
  lemma CutoffFits(p: nat, len: nat)
    requires p <= RET_BINS - 2 && len <= Cut(p)
    ensures ClassOf(len + CHUNK_HEADER) < RET_BINS
  {
    if p < RET_BINS - 2 {
      CutIncreases(p, RET_BINS - 2);
    }
    assert Cut(RET_BINS - 1) == 2 * Cut(RET_BINS - 2);
    var r := ClassOf(len + CHUNK_HEADER);
    assert len + CHUNK_HEADER <= Cut(RET_BINS - 1);
  }

  /** One size class higher and it would not. */
  lemma CutoffTight()
    ensures ClassOf(Cut(RET_BINS - 1) + CHUNK_HEADER) == RET_BINS
  {
    assert Cut(RET_BINS) == 2 * Cut(RET_BINS - 1);
    hide Cut;
    ClassOfBetween(Cut(RET_BINS - 1) + CHUNK_HEADER, RET_BINS);
  }
}
