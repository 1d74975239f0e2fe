/** The fixed point arithmetic of sys/netinet/ipfw/dn_sched_qfq.c. Timestamps are the unbounded
  reading of the 64-bit ones compared by qfq_gt. */
module QfqTime {
  import opened Basics
  import opened Bits

  const MAX_SLOTS := 32
  const MAX_INDEX := 19
  const MAX_WEIGHT := 0x1_0000
  const MAX_WSUM := 0x2_0000
  const ONE_FP := 0x4000_0000
  /** ONE_FP / QFQ_MAX_WSUM */
  const IWSUM := 0x2000
  /** 1 << QFQ_MIN_SLOT_SHIFT, with QFQ_MIN_SLOT_SHIFT == FRAC_BITS + QFQ_MTU_SHIFT - QFQ_MAX_INDEX == 22. */
  const MIN_SLOT := 0x40_0000

  /** 1 << slot_shift of group `i`. */
  function SlotSize(i: nat): (r: nat)
    ensures r > 0
  {
    MIN_SLOT * Pow2(i)
  }

  /** qfq_round_down: clear the bits below the slot size. */
  function RoundDown(ts: nat, size: nat): (r: nat)
    requires size > 0
  {
    ts / size * size
  }

  /** The rounded time is the multiple of the slot size in whose slot `ts` lies. */
  lemma RoundDownIs(ts: nat, size: nat)
    requires size > 0
    ensures RoundDown(ts, size) <= ts < RoundDown(ts, size) + size
    ensures RoundDown(RoundDown(ts, size), size) == RoundDown(ts, size)
  {
    var q := ts / size;
    assert ts == q * size + ts % size;
    DivUnique(q * size, size, q);
  }

  lemma {:induction false} Pow2Add(a: nat, b: nat)
    ensures Pow2(a + b) == Pow2(a) * Pow2(b)
  {
    if a > 0 {
      Pow2Add(a - 1, b);
    }
  }

  // ---------------------------------------------------------------- qfq_calc_index

  /** __fls: the position of the highest set bit. */
  function Fls(x: nat): (r: nat)
    requires x > 0
  {
    if x == 1 then 0 else 1 + Fls(x / 2)
  }

  lemma {:induction false} FlsIs(x: nat)
    requires x > 0
    ensures Pow2(Fls(x)) <= x < 2 * Pow2(Fls(x))
  {
    if x > 1 {
      FlsIs(x / 2);
    }
  }

  function CalcIndex(invW: nat, maxlen: nat): nat
  {
    var slotSize := maxlen * invW;
    var sizeMap := slotSize / MIN_SLOT;
    if sizeMap == 0 then 0 else
      var index := Fls(sizeMap) + 1;
      if slotSize == SlotSize(index - 1) then index - 1 else index
  }

  lemma SlotMono(a: nat, b: nat)
    requires a <= b
    ensures SlotSize(a) <= SlotSize(b)
  {
    Pow2Mono(a, b);
  }

  lemma SlotDouble(i: nat)
    ensures SlotSize(i + 1) == 2 * SlotSize(i)
  {
  }

  /** The quotient by the smallest slot shows between which slot sizes a value lies. */
  lemma SizeBounds(size: nat)
    requires size / MIN_SLOT > 0
    ensures SlotSize(Fls(size / MIN_SLOT)) <= size < SlotSize(Fls(size / MIN_SLOT) + 1)
  {
    var q := size / MIN_SLOT;
    FlsIs(q);
    SlotDouble(Fls(q));
  }

  /** qfq_calc_index finds the smallest group whose slots hold the service of one packet. */
  lemma CalcIndexIsLeast(invW: nat, maxlen: nat, i: nat)
    ensures maxlen * invW <= SlotSize(CalcIndex(invW, maxlen))
    ensures maxlen * invW <= SlotSize(i) ==> CalcIndex(invW, maxlen) <= i
  {
    hide Fls, SlotSize;
    var size := maxlen * invW;
    if size / MIN_SLOT == 0 {
      SlotZero();
    } else {
      SizeBounds(size);
      var f := Fls(size / MIN_SLOT);
      if i < f {
        SlotMono(i, f - 1);
        SlotDouble(f - 1);
      }
    }
  }

  lemma SlotZero()
    ensures SlotSize(0) == MIN_SLOT
  {
  }

  /** For the flowsets that qfq_new_fsk admits it is one of the 20 groups. */
  lemma CalcIndexFits(invW: nat, maxlen: nat)
    requires maxlen <= 2000 && invW <= ONE_FP
    ensures CalcIndex(invW, maxlen) <= MAX_INDEX
  {
    CalcIndexIsLeast(invW, maxlen, MAX_INDEX);
    MulMono(maxlen, 2000, invW);
    Pow2Add(10, 9);
  }

  // ---------------------------------------------------------------- eligibility by bits

  /** __fls(a ^ b), or -1 when a == b. */
  function HighDiff(a: nat, b: nat): (h: int)
    ensures h >= -1 && (h == -1 <==> a == b)
  {
    XorZero(a, b);
    if a == b then -1 else Fls(Xor(a, b))
  }

  lemma HighDiffHalf(a: nat, b: nat)
    requires a != b
    ensures HighDiff(a, b) == 1 + HighDiff(a / 2, b / 2)
  {
    XorZero(a, b);
    XorZero(a / 2, b / 2);
    XorParts(a, b);
  }

  /** Above their highest differing bit the numbers agree. */
  lemma {:induction false} SameAbove(a: nat, b: nat, k: nat)
    requires HighDiff(a, b) < k
    ensures a / Pow2(k) == b / Pow2(k)
    decreases k
  {
    hide HighDiff;
    if a != b {
      HighDiffHalf(a, b);
      SameAbove(a / 2, b / 2, k - 1);
      DivDiv(a, Pow2(k - 1));
      DivDiv(b, Pow2(k - 1));
    }
  }

  /** Down from their highest differing bit they differ. */
  lemma {:induction false} DifferBelow(a: nat, b: nat, k: nat)
    requires k <= HighDiff(a, b)
    ensures a / Pow2(k) != b / Pow2(k)
    decreases k
  {
    hide HighDiff;
    HighDiffSome(a, b);
    if k > 0 {
      HighDiffHalf(a, b);
      DifferBelow(a / 2, b / 2, k - 1);
      DivDiv(a, Pow2(k - 1));
      DivDiv(b, Pow2(k - 1));
    }
  }

  lemma HighDiffSome(a: nat, b: nat)
    requires HighDiff(a, b) >= 0
    ensures a != b
  {
  }

  lemma DivDiv(a: nat, m: nat)
    requires m > 0
    ensures a / 2 / m == a / (2 * m)
  {
    DivDivAny(a, 2, m);
  }

  lemma DivDivAny(a: nat, n: nat, m: nat)
    requires m > 0 && n > 0
    ensures n * m > 0 && a / n / m == a / (n * m)
  {
    var q := a / n / m;
    var r := a / n;
    assert a == r * n + a % n;
    assert r == q * m + r % m;
    MulMono(q * m, r, n);
    MulMono(r + 1, q * m + m, n);
    assert q * m * n == q * (n * m);
    assert (q * m + m) * n == q * (n * m) + n * m;
    assert (r + 1) * n == r * n + n;
    DivUnique(a, n * m, q);
  }

  /** The mask of qfq_make_eligible is wide enough: a group beyond it whose start time lay after
      the old virtual time lies after the new one as well. */
  lemma BeyondMask(oldV: nat, V: nat, S: nat, i: nat)
    requires RoundDown(S, SlotSize(i)) == S && oldV < S
    requires HighDiff(V / MIN_SLOT, oldV / MIN_SLOT) < i
    ensures V < S
  {
    hide HighDiff;
    var size := SlotSize(i);
    SameAbove(V / MIN_SLOT, oldV / MIN_SLOT, i);
    DivDivAny(V, MIN_SLOT, Pow2(i));
    DivDivAny(oldV, MIN_SLOT, Pow2(i));
    SameSlot(oldV, V, S, size);
  }

  /** It is not too wide: for a group within it the virtual time has left its slot. */
  lemma WithinMask(oldV: nat, V: nat, i: nat)
    requires oldV <= V && i <= HighDiff(V / MIN_SLOT, oldV / MIN_SLOT)
    ensures RoundDown(oldV, SlotSize(i)) + SlotSize(i) <= V
  {
    hide HighDiff;
    DifferBelow(V / MIN_SLOT, oldV / MIN_SLOT, i);
    DivDivAny(V, MIN_SLOT, Pow2(i));
    DivDivAny(oldV, MIN_SLOT, Pow2(i));
    NextSlotReached(oldV, V, SlotSize(i));
  }

  lemma NextSlotReached(oldV: nat, V: nat, size: nat)
    requires size > 0 && oldV <= V && oldV / size != V / size
    ensures RoundDown(oldV, size) + size <= V
  {
    RoundDownIs(V, size);
    RoundDownIs(oldV, size);
    var p, q := oldV / size, V / size;
    assert (q + 1) * size == q * size + size && (p + 1) * size == p * size + size;
    if q < p {
      MulMono(q + 1, p, size);
      assert false;
    }
    MulMono(p + 1, q, size);
  }

  lemma SameSlot(oldV: nat, V: nat, S: nat, size: nat)
    requires size > 0 && RoundDown(S, size) == S && oldV < S && oldV / size == V / size
    ensures V < S
  {
    RoundDownIs(V, size);
    RoundDownIs(oldV, size);
    AfterSlot(V, S, V / size, S / size, size);
  }

  /** A slot boundary after some time of a slot is after all of that slot. */
  lemma AfterSlot(V: nat, S: nat, q: nat, s: nat, size: nat)
    requires V < q * size + size && S == s * size && q * size < S
    ensures V < S
  {
    if s <= q {
      MulMono(s, q, size);
    } else {
      MulMono(q + 1, s, size);
      assert (q + 1) * size == q * size + size;
    }
  }
}
