/** A group of sys/netinet/ipfw/dn_sched_qfq.c: a circular wheel of 32 slots. Slot `s` of the
  wheel, counted from the front, holds the classes whose rounded start time is s slots after the
  group's. A bitmap is the set of the positions of its bits. */
module QfqWheel {
  import opened Basics
  import opened QfqTime

  /** The fields of struct qfq_group that change. */
  datatype Grp = Grp(S: nat, F: nat, front: nat, full: set<nat>, slots: seq<seq<nat>>)

  ghost predicate Wheel(g: Grp)
  {
    && |g.slots| == MAX_SLOTS && g.front < MAX_SLOTS
    && (forall s :: s in g.full ==> s < MAX_SLOTS)
    && (forall s :: 0 <= s < MAX_SLOTS ==> (s in g.full <==> Bucket(g, s) != []))
  }

  /** The classes in the slot that is `s` after the front one. */
  function Bucket(g: Grp, s: nat): seq<nat>
    requires |g.slots| == MAX_SLOTS
  {
    g.slots[(g.front + s) % MAX_SLOTS]
  }

  /** ffs(bitmap) - 1 for a bitmap without bits below `from` and with none from `n` on. */
  function LowBit(bm: set<nat>, from: nat, n: nat): (i: nat)
    requires exists b :: b in bm && from <= b < n
    ensures i in bm && from <= i < n && forall j :: j in bm && from <= j ==> i <= j
    decreases n - from
  {
    if from in bm then from else LowBit(bm, from + 1, n)
  }

  /** bitmap >> k */
  function ShiftRight(bm: set<nat>, k: nat): (r: set<nat>)
    ensures forall t: nat :: t in r <==> t + k in bm
  {
    set j | j in bm && k <= j :: j - k
  }

  /** bitmap << k */
  function ShiftLeft(bm: set<nat>, k: nat): (r: set<nat>)
    ensures forall t: nat :: t in r <==> k <= t && t - k in bm
  {
    set j | j in bm :: j + k
  }

  lemma WheelIndex(front: nat, s: nat, r: nat)
    requires front < MAX_SLOTS && s < MAX_SLOTS && r < MAX_SLOTS && s != r
    ensures (front + s) % MAX_SLOTS != (front + r) % MAX_SLOTS
  {
  }

  /** Turning the wheel past `k` empty slots. */
  ghost function TurnedGrp(g: Grp, k: nat): Grp
  {
    g.(front := (g.front + k) % MAX_SLOTS, full := ShiftRight(g.full, k))
  }

  lemma ForthIndex(front: nat, k: nat, s: nat)
    requires front < MAX_SLOTS && k < MAX_SLOTS && s < MAX_SLOTS
    ensures ((front + k) % MAX_SLOTS + s) % MAX_SLOTS == (front + if s + k < MAX_SLOTS then s + k else s + k - MAX_SLOTS) % MAX_SLOTS
  {
    assert (front + k) % MAX_SLOTS == if front + k < MAX_SLOTS then front + k else front + k - MAX_SLOTS;
  }

  lemma TurnedBucket(g: Grp, k: nat, s: nat)
    requires Wheel(g) && k in g.full && s < MAX_SLOTS && forall j :: j in g.full ==> k <= j
    ensures Bucket(TurnedGrp(g, k), s) == if s + k < MAX_SLOTS then Bucket(g, s + k) else []
    ensures s in TurnedGrp(g, k).full <==> Bucket(TurnedGrp(g, k), s) != []
  {
    ForthIndex(g.front, k, s);
    if s + k < MAX_SLOTS {
      assert s + k in g.full <==> Bucket(g, s + k) != [];
    } else {
      assert s + k - MAX_SLOTS !in g.full;
      assert Bucket(g, s + k - MAX_SLOTS) == [];
    }
  }

  lemma Turned(g: Grp, k: nat)
    requires Wheel(g) && k in g.full && forall j :: j in g.full ==> k <= j
    ensures Wheel(TurnedGrp(g, k))
    ensures forall s :: 0 <= s < MAX_SLOTS ==> Bucket(TurnedGrp(g, k), s) == if s + k < MAX_SLOTS then Bucket(g, s + k) else []
  {
    hide Bucket;
    var h := TurnedGrp(g, k);
    forall s | 0 <= s < MAX_SLOTS
      ensures Bucket(h, s) == if s + k < MAX_SLOTS then Bucket(g, s + k) else []
      ensures s in h.full <==> Bucket(h, s) != []
    {
      TurnedBucket(g, k, s);
    }
    forall s | s in h.full
      ensures s < MAX_SLOTS
    {
      assert s + k in g.full;
    }
  }

  /** (front - i) % QFQ_MAX_SLOTS on unsigned ints: 2^32 is a multiple of the wheel size. */
  function Back(front: nat, i: nat): (r: nat)
    requires front < MAX_SLOTS && i < MAX_SLOTS
    ensures r < MAX_SLOTS
  {
    (front + 0x1_0000_0000 - i) % MAX_SLOTS
  }

  lemma BackIndex(front: nat, i: nat, s: nat)
    requires front < MAX_SLOTS && i < MAX_SLOTS && s < MAX_SLOTS
    ensures (Back(front, i) + s) % MAX_SLOTS == (front + if s < i then s - i + MAX_SLOTS else s - i) % MAX_SLOTS
  {
    assert Back(front, i) == if i <= front then front - i else front - i + MAX_SLOTS;
  }

  /** Turning the wheel back by `i` slots that are free at its end. */
  ghost function RotatedGrp(g: Grp, i: nat): Grp
    requires g.front < MAX_SLOTS && i < MAX_SLOTS
  {
    g.(front := Back(g.front, i), full := ShiftLeft(g.full, i))
  }

  lemma RotatedBucket(g: Grp, i: nat, s: nat)
    requires Wheel(g) && i < MAX_SLOTS && s < MAX_SLOTS && forall s :: s in g.full ==> s + i < MAX_SLOTS
    ensures Bucket(RotatedGrp(g, i), s) == if s < i then [] else Bucket(g, s - i)
    ensures s in RotatedGrp(g, i).full <==> Bucket(RotatedGrp(g, i), s) != []
  {
    hide Back;
    BackIndex(g.front, i, s);
    if s < i {
      assert s - i + MAX_SLOTS !in g.full;
      assert Bucket(g, s - i + MAX_SLOTS) == [];
    } else {
      assert s - i in g.full <==> Bucket(g, s - i) != [];
    }
  }

  lemma Rotated(g: Grp, i: nat)
    requires Wheel(g) && i < MAX_SLOTS && forall s :: s in g.full ==> s + i < MAX_SLOTS
    ensures Wheel(RotatedGrp(g, i))
    ensures forall s :: 0 <= s < MAX_SLOTS ==> Bucket(RotatedGrp(g, i), s) == if s < i then [] else Bucket(g, s - i)
  {
    hide Back, Bucket;
    var h := RotatedGrp(g, i);
    forall s | 0 <= s < MAX_SLOTS
      ensures Bucket(h, s) == if s < i then [] else Bucket(g, s - i)
      ensures s in h.full <==> Bucket(h, s) != []
    {
      RotatedBucket(g, i, s);
    }
    forall s | s in h.full
      ensures s < MAX_SLOTS
    {
      assert s - i in g.full;
    }
  }

  lemma OfWheel(g: Grp)
    requires Wheel(g)
    ensures |g.slots| == MAX_SLOTS && g.front < MAX_SLOTS && forall s :: s in g.full ==> s < MAX_SLOTS
    ensures 0 in g.full <==> Bucket(g, 0) != []
    ensures Bucket(g, 0) == g.slots[g.front]
  {
  }

  /** A class at the head of slot `slot`. */
  lemma InsertedAt(g: Grp, c: nat, slot: nat)
    requires Wheel(g) && slot < MAX_SLOTS
    ensures var i := (g.front + slot) % MAX_SLOTS;
            var h := g.(slots := g.slots[i := [c] + g.slots[i]], full := g.full + {slot});
            && Wheel(h)
            && forall s :: 0 <= s < MAX_SLOTS ==> Bucket(h, s) == if s == slot then [c] + Bucket(g, s) else Bucket(g, s)
  {
    var i := (g.front + slot) % MAX_SLOTS;
    var h := g.(slots := g.slots[i := [c] + g.slots[i]], full := g.full + {slot});
    forall s | 0 <= s < MAX_SLOTS
      ensures Bucket(h, s) == if s == slot then [c] + Bucket(g, s) else Bucket(g, s)
      ensures s in h.full <==> Bucket(h, s) != []
    {
      if s != slot {
        WheelIndex(g.front, s, slot);
      }
      assert s in g.full <==> Bucket(g, s) != [];
    }
  }

  class Group {
    const index: nat
    var S: nat
    var F: nat
    var front: nat
    var full: set<nat>
    var slots: seq<seq<nat>>

    ghost function View(): Grp
      reads this
    {
      Grp(S, F, front, full, slots)
    }

    constructor (index: nat)
      ensures this.index == index && View() == Grp(0, 0, 0, {}, seq(MAX_SLOTS, _ => []))
      ensures Wheel(View())
    {
      this.index := index;
      S, F, front, full, slots := 0, 0, 0, {}, seq(MAX_SLOTS, _ => []);
    }

    /** How many slots after the front one the slot for a rounded start time is. */
    function SlotFor(roundedS: nat): int
      reads this
    {
      (roundedS - S) / SlotSize(index)
    }

    /** qfq_slot_insert */
    method SlotInsert(c: nat, roundedS: nat)
      requires Wheel(View()) && 0 <= SlotFor(roundedS) < MAX_SLOTS
      modifies `slots, `full
      ensures Wheel(View())
      ensures full == old(full) + {SlotFor(roundedS)}
      ensures forall s :: 0 <= s < MAX_SLOTS ==>
                Bucket(View(), s) == if s == SlotFor(roundedS) then [c] + old(Bucket(View(), s)) else old(Bucket(View(), s))
    {
      hide SlotSize, Wheel, Bucket;
      OfWheel(View());
      var slot := (roundedS - S) / SlotSize(index);
      var i := (front + slot) % MAX_SLOTS;
      InsertedAt(View(), c, slot);
      slots := slots[i := [c] + slots[i]];
      full := full + {slot};
    }

    /** qfq_front_slot_remove: unlink the head of the front slot. */
    method FrontSlotRemove()
      requires Wheel(View()) && Bucket(View(), 0) != []
      modifies `slots, `full
      ensures Wheel(View())
      ensures full == if Bucket(View(), 0) == [] then old(full) - {0} else old(full)
      ensures forall s :: 0 <= s < MAX_SLOTS ==> Bucket(View(), s) == if s == 0 then old(Bucket(View(), 0))[1..] else old(Bucket(View(), s))
    {
      slots := slots[front := slots[front][1..]];
      if slots[front] == [] {
        full := full - {0};
      }
      forall s | 0 <= s < MAX_SLOTS
        ensures Bucket(View(), s) == if s == 0 then old(Bucket(View(), 0))[1..] else old(Bucket(View(), s))
      {
        if s != 0 {
          WheelIndex(front, s, 0);
        }
      }
    }

    /** qfq_slot_scan: turn the wheel to its first non-empty slot and give its first class. `i` is
        how far it was turned. */
    method SlotScan() returns (found: bool, c: nat, ghost i: nat)
      requires Wheel(View())
      modifies `front, `full
      ensures Wheel(View())
      ensures found <==> old(full) != {}
      ensures found ==> i in old(full) && (forall j :: j in old(full) ==> i <= j) && 0 in full
      ensures found ==> Bucket(View(), 0) != [] && c == Bucket(View(), 0)[0]
      ensures found ==> forall s :: 0 <= s < MAX_SLOTS ==> Bucket(View(), s) == if s + i < MAX_SLOTS then old(Bucket(View(), s + i)) else []
      ensures !found ==> View() == old(View())
    {
      hide Wheel, ShiftRight, Bucket;
      if full == {} {
        return false, 0, 0;
      }
      OfWheel(View());
      var b :| b in full;
      var k := LowBit(full, 0, MAX_SLOTS);
      if k > 0 {
        Turned(View(), k);
        front := (front + k) % MAX_SLOTS;
        full := ShiftRight(full, k);
      }
      OfWheel(View());
      found, c, i := true, slots[front][0], k;
    }

    /** How many slots before the front one the slot for a rounded start time is. */
    function SlotsBefore(roundedS: nat): int
      reads this
    {
      (S - roundedS) / SlotSize(index)
    }

    /** qfq_slot_rotate: make room for an earlier start time. */
    method SlotRotate(roundedS: nat)
      requires Wheel(View()) && 0 <= SlotsBefore(roundedS) < MAX_SLOTS
      requires forall s :: s in full ==> s + SlotsBefore(roundedS) < MAX_SLOTS
      modifies `front, `full
      ensures Wheel(View())
      ensures full == ShiftLeft(old(full), old(SlotsBefore(roundedS)))
      ensures forall s :: 0 <= s < MAX_SLOTS ==>
                Bucket(View(), s) == if s < SlotsBefore(roundedS) then [] else old(Bucket(View(), s - SlotsBefore(roundedS)))
    {
      hide Wheel, ShiftLeft, Back, SlotSize;
      var i := (S - roundedS) / SlotSize(index);
      OfWheel(View());
      Rotated(View(), i);
      full := ShiftLeft(full, i);
      front := Back(front, i);
    }
  }

}
