/** The classes of sys/netinet/ipfw/dn_sched_qfq.c and their places in the wheels of the groups. */
module QfqClasses {
  import opened PacketQueue
  import opened Basics
  import opened QfqTime
  import opened QfqWheel
  import opened QfqMarks

  /** struct qfq_class; `grp` is the index of its group. */
  datatype Class = Class(mq: seq<Packet>, S: nat, F: nat, grp: nat, invW: nat, lmax: nat)

  type Classes = map<nat, Class>

  /** The packets obey the parameters of the class, and a backlogged class finishes when its first
      packet is served at the rate of its weight. */
  ghost predicate ClassOk(cl: Class)
  {
    && cl.grp < GROUPS && cl.lmax * cl.invW <= SlotSize(cl.grp)
    && (forall k :: 0 <= k < |cl.mq| ==> cl.mq[k].len <= cl.lmax)
    && (cl.mq != [] ==> cl.F == cl.S + cl.mq[0].len * cl.invW)
  }

  function SlotAt(S: nat, s: nat, size: nat): nat
  {
    S + s * size
  }

  /** Class `c` is one for slot `s` of group `i`. */
  ghost predicate Belongs(cs: Classes, S: nat, i: nat, c: nat, s: nat)
  {
    c in cs && cs[c].grp == i && cs[c].mq != [] && RoundDown(cs[c].S, SlotSize(i)) == SlotAt(S, s, SlotSize(i))
  }

  ghost predicate InSlot(g: Grp, s: nat, c: nat)
  {
    |g.slots| == MAX_SLOTS && s < MAX_SLOTS && c in Bucket(g, s)
  }

  ghost predicate SlotDistinct(g: Grp, s: nat)
  {
    |g.slots| == MAX_SLOTS && Distinct(Bucket(g, s))
  }

  /** The wheel is a map from rounded start times to the classes that start then. */
  ghost predicate WheelOk(cs: Classes, g: Grp, i: nat)
  {
    && Wheel(g)
    && (forall s: nat, c :: InSlot(g, s, c) ==> Belongs(cs, g.S, i, c, s))
    && (forall s :: 0 <= s < MAX_SLOTS ==> SlotDistinct(g, s))
  }

  ghost predicate InWheel(g: Grp, c: nat)
  {
    exists s :: InSlot(g, s, c)
  }

  /** Every backlogged class of group `i` is in its wheel. */
  ghost predicate Stored(cs: Classes, g: Grp, i: nat)
  {
    forall c :: c in cs && cs[c].grp == i && cs[c].mq != [] ==> InWheel(g, c)
  }

  ghost predicate ClassesOk(cs: Classes, gs: seq<Grp>)
  {
    && |gs| == GROUPS
    && (forall c :: c in cs ==> ClassOk(cs[c]))
    && (forall i :: 0 <= i < GROUPS ==> WheelOk(cs, gs[i], i))
    && (forall i :: 0 <= i < GROUPS ==> Stored(cs, gs[i], i))
  }

  /** The front slot of a wheel with classes has one. */
  ghost predicate FrontOk(g: Grp)
  {
    g.full != {} ==> 0 in g.full
  }

  lemma OfClasses(cs: Classes, gs: seq<Grp>, i: nat)
    requires ClassesOk(cs, gs) && i < GROUPS
    ensures |gs| == GROUPS && WheelOk(cs, gs[i], i) && Stored(cs, gs[i], i) && Wheel(gs[i])
  {
  }

  /** A change of one class and of the wheel of its group. */
  lemma OneGroup(cs: Classes, gs: seq<Grp>, i: nat, c: nat, cl: Class, g: Grp)
    requires ClassesOk(cs, gs) && i < GROUPS && ClassOk(cl) && cl.grp == i && (c in cs ==> cs[c].grp == i)
    requires WheelOk(cs[c := cl], g, i) && Stored(cs[c := cl], g, i)
    ensures ClassesOk(cs[c := cl], gs[i := g])
  {
    hide Wheel, ClassOk, InSlot, SlotDistinct, InWheel, SlotAt, RoundDown, SlotSize;
    var cs' := cs[c := cl];
    forall j | 0 <= j < GROUPS && j != i
      ensures WheelOk(cs', gs[j], j) && Stored(cs', gs[j], j)
    {
      assert WheelOk(cs, gs[j], j) && Stored(cs, gs[j], j);
    }
  }

  /** The same change inside the wheel: slots hold what they did but for one class. */
  lemma OneClass(cs: Classes, i: nat, g: Grp, c: nat, cl: Class, h: Grp)
    requires WheelOk(cs, g, i) && Stored(cs, g, i) && Wheel(h) && h.S == g.S && cl.grp == i
    requires forall s: nat, d :: d != c ==> (InSlot(h, s, d) <==> InSlot(g, s, d))
    requires forall s :: InSlot(h, s, c) ==> Belongs(cs[c := cl], g.S, i, c, s)
    requires cl.mq != [] ==> InWheel(h, c)
    requires forall s :: 0 <= s < MAX_SLOTS ==> SlotDistinct(h, s)
    ensures WheelOk(cs[c := cl], h, i) && Stored(cs[c := cl], h, i)
  {
    hide Wheel, InSlot, SlotDistinct, SlotAt, RoundDown, SlotSize;
    var cs' := cs[c := cl];
    forall d | d in cs' && cs'[d].grp == i && cs'[d].mq != []
      ensures InWheel(h, d)
    {
      if d != c {
        assert InWheel(g, d);
        var s: nat :| InSlot(g, s, d);
        assert InSlot(h, s, d);
      }
    }
    forall s: nat, d | InSlot(h, s, d)
      ensures Belongs(cs', h.S, i, d, s)
    {
      if d != c {
        assert InSlot(g, s, d);
        assert Belongs(cs, g.S, i, d, s);
      }
    }
  }

  // ---------------------------------------------------------------- serving the front class

  /** The class at the head of the front slot of `g`. */
  ghost predicate Front(g: Grp, c: nat)
  {
    |g.slots| == MAX_SLOTS && Bucket(g, 0) != [] && Bucket(g, 0)[0] == c
  }

  lemma FrontBelongs(cs: Classes, g: Grp, i: nat, c: nat)
    requires WheelOk(cs, g, i) && Front(g, c)
    ensures InSlot(g, 0, c) && Belongs(cs, g.S, i, c, 0)
    ensures c in cs && cs[c].grp == i && cs[c].mq != [] && RoundDown(cs[c].S, SlotSize(i)) == g.S
  {
    hide Wheel, Bucket, RoundDown, SlotSize;
    assert InSlot(g, 0, c);
  }

  lemma RoundSlot(size: nat, a: nat, b: nat)
    requires size > 0 && a <= b <= a + size
    ensures RoundDown(b, size) == RoundDown(a, size) || RoundDown(b, size) == RoundDown(a, size) + size
  {
    var q := a / size;
    assert a == q * size + a % size;
    if b < q * size + size {
      DivUnique(b, size, q);
    } else {
      assert (q + 1) * size == q * size + size;
      DivUnique(b, size, q + 1);
    }
  }

  lemma ServiceFits(cl: Class)
    requires ClassOk(cl) && cl.mq != []
    ensures cl.S <= cl.F <= cl.S + SlotSize(cl.grp)
  {
    hide SlotSize;
    MulMono(cl.mq[0].len, cl.lmax, cl.invW);
  }

  /** A served class that changes slot lands exactly one slot later, and no class of the front slot
      finishes after its group. */
  lemma NextSlot(cs: Classes, gs: seq<Grp>, i: nat, c: nat)
    requires ClassesOk(cs, gs) && i < GROUPS && InSlot(gs[i], 0, c)
    ensures c in cs && cs[c].mq != []
    ensures RoundDown(cs[c].F, SlotSize(i)) == gs[i].S || RoundDown(cs[c].F, SlotSize(i)) == gs[i].S + SlotSize(i)
    ensures cs[c].F < gs[i].S + 2 * SlotSize(i)
  {
    hide Wheel, InSlot, RoundDown, SlotSize, ClassOk;
    OfClasses(cs, gs, i);
    assert Belongs(cs, gs[i].S, i, c, 0);
    RoundDownIs(cs[c].S, SlotSize(i));
    assert ClassOk(cs[c]) && cs[c].grp < GROUPS by { InGroup(cs, gs, c); }
    ServiceFits(cs[c]);
    RoundSlot(SlotSize(i), cs[c].S, cs[c].F);
  }

  lemma InGroup(cs: Classes, gs: seq<Grp>, c: nat)
    requires ClassesOk(cs, gs) && c in cs
    ensures ClassOk(cs[c]) && cs[c].grp < GROUPS
  {
    hide WheelOk, Stored, SlotSize;
  }

  /** The scan's choice is the earliest rounded start time of its group. */
  lemma FrontIsEarliest(cs: Classes, gs: seq<Grp>, i: nat, c: nat, d: nat)
    requires ClassesOk(cs, gs) && i < GROUPS && Front(gs[i], c)
    requires d in cs && cs[d].grp == i && cs[d].mq != []
    ensures c in cs && RoundDown(cs[c].S, SlotSize(i)) <= RoundDown(cs[d].S, SlotSize(i))
  {
    hide Wheel, Front, InSlot, RoundDown, SlotSize;
    OfClasses(cs, gs, i);
    FrontBelongs(cs, gs[i], i, c);
    assert InWheel(gs[i], d);
    var s: nat :| InSlot(gs[i], s, d);
    assert Belongs(cs, gs[i].S, i, d, s);
  }

  /** Buckets after qfq_front_slot_remove. */
  ghost predicate Removed(g: Grp, h: Grp)
  {
    && Wheel(h) && h.S == g.S && |g.slots| == MAX_SLOTS && Bucket(g, 0) != []
    && forall s :: 0 <= s < MAX_SLOTS ==> Bucket(h, s) == if s == 0 then Bucket(g, 0)[1..] else Bucket(g, s)
  }

  /** Buckets after qfq_slot_insert of `c` at `slot`. */
  ghost predicate Inserted(g: Grp, h: Grp, c: nat, slot: nat)
  {
    && Wheel(h) && h.S == g.S && |g.slots| == MAX_SLOTS && slot < MAX_SLOTS
    && forall s :: 0 <= s < MAX_SLOTS ==> Bucket(h, s) == if s == slot then [c] + Bucket(g, slot) else Bucket(g, s)
  }

  lemma TailDistinct(q: seq<nat>)
    requires Distinct(q) && q != []
    ensures Distinct(q[1..]) && q[0] !in q[1..] && forall d :: d != q[0] ==> (d in q <==> d in q[1..])
  {
    forall d | d != q[0] && d in q
      ensures d in q[1..]
    {
      var k :| 0 <= k < |q| && q[k] == d;
      assert q[1..][k - 1] == d;
    }
  }

  lemma SlotsRemoved(g: Grp, h: Grp, c: nat, s: nat, d: nat)
    requires Removed(g, h) && Front(g, c) && s < MAX_SLOTS && SlotDistinct(g, s)
    ensures SlotDistinct(h, s)
    ensures d != c ==> (InSlot(h, s, d) <==> InSlot(g, s, d))
    ensures InSlot(h, s, c) ==> s != 0 && InSlot(g, s, c)
  {
    hide Bucket;
    if s == 0 {
      TailDistinct(Bucket(g, 0));
    }
  }

  lemma SlotsInserted(g: Grp, h: Grp, c: nat, slot: nat, s: nat, d: nat)
    requires Inserted(g, h, c, slot) && s < MAX_SLOTS && SlotDistinct(g, s) && !InSlot(g, slot, c)
    ensures SlotDistinct(h, s) && InSlot(h, slot, c)
    ensures d != c ==> (InSlot(h, s, d) <==> InSlot(g, s, d))
    ensures InSlot(h, s, c) ==> s == slot || InSlot(g, s, c)
  {
    hide Bucket;
    assert c in [c] + Bucket(g, slot);
  }

  /** A class is in one slot only. */
  lemma OneSlot(cs: Classes, g: Grp, i: nat, c: nat, s: nat, t: nat)
    requires WheelOk(cs, g, i) && InSlot(g, s, c) && InSlot(g, t, c)
    ensures s == t
  {
    hide Wheel, InSlot, SlotSize, RoundDown;
    assert Belongs(cs, g.S, i, c, s) && Belongs(cs, g.S, i, c, t);
    SlotInjective(g.S, s, t, SlotSize(i));
  }

  lemma SlotInjective(S: nat, s: nat, t: nat, size: nat)
    requires size > 0
    ensures SlotAt(S, s, size) == SlotAt(S, t, size) ==> s == t
  {
    if s < t {
      MulMono(s + 1, t, size);
    } else if t < s {
      MulMono(t + 1, s, size);
    }
  }

  lemma SlotBase(S: nat, size: nat)
    ensures SlotAt(S, 0, size) == S && SlotAt(S, 1, size) == S + size
  {
  }

  /** The served class stays in its slot. */
  lemma ServeStays(cs: Classes, g: Grp, i: nat, c: nat, cl: Class)
    requires WheelOk(cs, g, i) && Stored(cs, g, i) && Front(g, c)
    requires cl.grp == i && cl.mq != [] && RoundDown(cl.S, SlotSize(i)) == g.S
    ensures WheelOk(cs[c := cl], g, i) && Stored(cs[c := cl], g, i)
  {
    hide Wheel, Bucket, SlotSize, RoundDown, SlotDistinct, SlotAt;
    FrontBelongs(cs, g, i, c);
    SlotBase(g.S, SlotSize(i));
    forall s | InSlot(g, s, c)
      ensures Belongs(cs[c := cl], g.S, i, c, s)
    {
      OneSlot(cs, g, i, c, s, 0);
    }
    OneClass(cs, i, g, c, cl, g);
  }

  /** The served class has no packets left. */
  lemma ServeLeaves(cs: Classes, g: Grp, i: nat, c: nat, cl: Class, h: Grp)
    requires WheelOk(cs, g, i) && Stored(cs, g, i) && Front(g, c) && Removed(g, h)
    requires cl.grp == i && cl.mq == []
    ensures WheelOk(cs[c := cl], h, i) && Stored(cs[c := cl], h, i)
  {
    hide Wheel, Bucket, SlotSize, RoundDown, SlotAt, Front, InSlot, SlotDistinct, Belongs, Stored;
    RemovedSlots(cs, g, i, c, h);
    OneClass(cs, i, g, c, cl, h);
  }

  lemma RemovedSlots(cs: Classes, g: Grp, i: nat, c: nat, h: Grp)
    requires WheelOk(cs, g, i) && Front(g, c) && Removed(g, h)
    ensures Wheel(h) && h.S == g.S
    ensures forall s: nat, d :: d != c ==> (InSlot(h, s, d) <==> InSlot(g, s, d))
    ensures forall s :: !InSlot(h, s, c)
    ensures forall s :: 0 <= s < MAX_SLOTS ==> SlotDistinct(h, s)
  {
    hide Wheel, Bucket, Front, SlotDistinct, Belongs;
    FrontBelongs(cs, g, i, c);
    forall s | 0 <= s < MAX_SLOTS
      ensures SlotDistinct(h, s)
    {
      SlotsRemoved(g, h, c, s, c);
    }
    forall s, d | 0 <= s < MAX_SLOTS
      ensures !InSlot(h, s, c)
      ensures d != c ==> (InSlot(h, s, d) <==> InSlot(g, s, d))
    {
      SlotsRemoved(g, h, c, s, d);
      if InSlot(h, s, c) {
        OneSlot(cs, g, i, c, s, 0);
      }
    }
  }

  lemma InsertedSlots(g: Grp, c: nat, slot: nat, h: Grp)
    requires Inserted(g, h, c, slot) && (forall s :: !InSlot(g, s, c))
    requires forall s :: 0 <= s < MAX_SLOTS ==> SlotDistinct(g, s)
    ensures Wheel(h) && h.S == g.S && InSlot(h, slot, c)
    ensures forall s: nat, d :: d != c ==> (InSlot(h, s, d) <==> InSlot(g, s, d))
    ensures forall s :: InSlot(h, s, c) ==> s == slot
    ensures forall s :: 0 <= s < MAX_SLOTS ==> SlotDistinct(h, s)
  {
    hide Wheel, Bucket, SlotDistinct;
    forall s | 0 <= s < MAX_SLOTS
      ensures SlotDistinct(h, s)
    {
      SlotsInserted(g, h, c, slot, s, c);
    }
    forall s, d | 0 <= s < MAX_SLOTS
      ensures InSlot(h, slot, c)
      ensures d != c ==> (InSlot(h, s, d) <==> InSlot(g, s, d))
      ensures InSlot(h, s, c) ==> s == slot
    {
      SlotsInserted(g, h, c, slot, s, d);
    }
  }

  /** The served class is moved to slot 1. */
  lemma ServeMoves(cs: Classes, g: Grp, i: nat, c: nat, cl: Class, mid: Grp, h: Grp)
    requires WheelOk(cs, g, i) && Stored(cs, g, i) && Front(g, c) && Removed(g, mid) && Inserted(mid, h, c, 1)
    requires cl.grp == i && cl.mq != [] && RoundDown(cl.S, SlotSize(i)) == g.S + SlotSize(i)
    ensures WheelOk(cs[c := cl], h, i) && Stored(cs[c := cl], h, i)
  {
    hide Wheel, Bucket, SlotSize, RoundDown, SlotAt, Front, InSlot, SlotDistinct, Removed, Inserted, Stored;
    RemovedSlots(cs, g, i, c, mid);
    InsertedSlots(mid, c, 1, h);
    SlotBase(g.S, SlotSize(i));
    assert InWheel(h, c);
    OneClass(cs, i, g, c, cl, h);
  }

  // ---------------------------------------------------------------- turning the wheel

  /** Slot `s` of `h` is slot `s + k` of `g`, and the others of `g` are empty. */
  ghost predicate Shifted(g: Grp, h: Grp, k: nat)
  {
    && Wheel(h)
    && (forall s: nat, c :: InSlot(h, s, c) ==> InSlot(g, s + k, c))
    && (forall s: nat, c :: InSlot(g, s, c) ==> k <= s && InSlot(h, s - k, c))
    && (forall s :: 0 <= s < MAX_SLOTS ==> SlotDistinct(h, s))
  }

  lemma SlotShift(S: nat, k: nat, s: nat, size: nat)
    ensures SlotAt(SlotAt(S, k, size), s, size) == SlotAt(S, s + k, size)
  {
  }

  /** Turning the wheel keeps the place of each class in time. */
  lemma ShiftOk(cs: Classes, g: Grp, i: nat, h: Grp, k: nat)
    requires WheelOk(cs, g, i) && Stored(cs, g, i) && Shifted(g, h, k) && h.S == SlotAt(g.S, k, SlotSize(i))
    ensures WheelOk(cs, h, i) && Stored(cs, h, i)
  {
    hide Wheel, InSlot, SlotDistinct, SlotAt, RoundDown, SlotSize;
    forall s: nat, c | InSlot(h, s, c)
      ensures Belongs(cs, h.S, i, c, s)
    {
      assert Belongs(cs, g.S, i, c, s + k);
      SlotShift(g.S, k, s, SlotSize(i));
    }
    StoredShift(cs, g, i, h, k);
  }

  lemma StoredShift(cs: Classes, g: Grp, i: nat, h: Grp, k: int)
    requires Stored(cs, g, i) && forall s: nat, c :: InSlot(g, s, c) ==> 0 <= s - k && InSlot(h, s - k, c)
    ensures Stored(cs, h, i)
  {
    hide InSlot;
    forall c | c in cs && cs[c].grp == i && cs[c].mq != []
      ensures InWheel(h, c)
    {
      assert InWheel(g, c);
      var s: nat :| InSlot(g, s, c);
      assert InSlot(h, s - k, c);
    }
  }

  /** The other direction, for an earlier start time. */
  lemma ShiftBackOk(cs: Classes, g: Grp, i: nat, h: Grp, k: nat)
    requires WheelOk(cs, g, i) && Stored(cs, g, i) && g.S == SlotAt(h.S, k, SlotSize(i))
    requires Wheel(h) && (forall s :: 0 <= s < MAX_SLOTS ==> SlotDistinct(h, s))
    requires forall s: nat, c :: InSlot(h, s, c) ==> k <= s && InSlot(g, s - k, c)
    requires forall s: nat, c :: InSlot(g, s, c) ==> InSlot(h, s + k, c)
    ensures WheelOk(cs, h, i) && Stored(cs, h, i)
  {
    hide Wheel, InSlot, SlotDistinct, SlotAt, RoundDown, SlotSize;
    forall s: nat, c | InSlot(h, s, c)
      ensures Belongs(cs, h.S, i, c, s)
    {
      assert Belongs(cs, g.S, i, c, s - k);
      SlotShift(h.S, k, s - k, SlotSize(i));
    }
    StoredShift(cs, g, i, h, 0 - k);
  }

  /** A wheel without classes may get any start time. */
  lemma EmptyOk(cs: Classes, g: Grp, i: nat, h: Grp)
    requires WheelOk(cs, g, i) && Stored(cs, g, i) && g.full == {} && h == g.(S := h.S, F := h.F)
    ensures WheelOk(cs, h, i) && Stored(cs, h, i)
    ensures forall s: nat, c :: !InSlot(h, s, c)
    ensures forall c :: c in cs && cs[c].grp == i ==> cs[c].mq == []
  {
    hide SlotAt, RoundDown, SlotSize;
    forall s: nat, c
      ensures !InSlot(g, s, c) && !InSlot(h, s, c)
    {
      if s < MAX_SLOTS {
        assert s !in g.full;
        assert Bucket(g, s) == [] && Bucket(h, s) == [];
      }
    }
    forall c | c in cs && cs[c].grp == i
      ensures cs[c].mq == []
    {
      assert cs[c].mq != [] ==> InWheel(g, c);
    }
    forall s | 0 <= s < MAX_SLOTS
      ensures SlotDistinct(h, s)
    {
      assert SlotDistinct(g, s);
      assert Bucket(h, s) == Bucket(g, s);
    }
  }

  /** An idle class becomes backlogged. */
  lemma ArrivesOk(cs: Classes, g: Grp, i: nat, c: nat, cl: Class, slot: nat, h: Grp)
    requires WheelOk(cs, g, i) && Stored(cs, g, i) && Inserted(g, h, c, slot)
    requires c in cs ==> cs[c].mq == []
    requires cl.grp == i && cl.mq != [] && RoundDown(cl.S, SlotSize(i)) == SlotAt(g.S, slot, SlotSize(i))
    ensures WheelOk(cs[c := cl], h, i) && Stored(cs[c := cl], h, i)
  {
    hide Wheel, Bucket, SlotSize, RoundDown, SlotAt, InSlot, SlotDistinct, Inserted, Stored;
    forall s
      ensures !InSlot(g, s, c)
    {
      assert InSlot(g, s, c) ==> Belongs(cs, g.S, i, c, s);
    }
    InsertedSlots(g, c, slot, h);
    assert InWheel(h, c);
    OneClass(cs, i, g, c, cl, h);
  }

  /** Where a class without packets is, nothing is. */
  lemma IdleElsewhere(cs: Classes, g: Grp, i: nat, c: nat, cl: Class)
    requires WheelOk(cs, g, i) && Stored(cs, g, i) && (c in cs ==> cs[c].mq == []) && cl.mq == []
    ensures WheelOk(cs[c := cl], g, i) && Stored(cs[c := cl], g, i)
  {
    hide Wheel, SlotSize, RoundDown, SlotAt, InSlot, SlotDistinct;
    forall s: nat, d | InSlot(g, s, d)
      ensures Belongs(cs[c := cl], g.S, i, d, s)
    {
      assert Belongs(cs, g.S, i, d, s);
    }
  }

  /** `mid` is the wheel `g` turned past its first `k` slots, which are empty. */
  ghost predicate Scan(g: Grp, mid: Grp, k: nat)
  {
    && Wheel(g) && Wheel(mid) && mid.S == g.S && k in g.full && (forall j :: j in g.full ==> k <= j)
    && forall s :: 0 <= s < MAX_SLOTS ==> Bucket(mid, s) == if s + k < MAX_SLOTS then Bucket(g, s + k) else []
  }

  lemma ScanShifts(g: Grp, mid: Grp, k: nat)
    requires Scan(g, mid, k) && forall s :: 0 <= s < MAX_SLOTS ==> SlotDistinct(g, s)
    ensures Shifted(g, mid, k)
  {
    forall s: nat, c | InSlot(g, s, c)
      ensures k <= s && InSlot(mid, s - k, c)
    {
      assert s in g.full;
      assert Bucket(mid, s - k) == Bucket(g, s - k + k);
    }
    forall s | 0 <= s < MAX_SLOTS
      ensures SlotDistinct(mid, s)
    {
      assert s + k < MAX_SLOTS ==> SlotDistinct(g, s + k);
    }
  }

  lemma SameSlots(g: Grp, h: Grp, k: nat, S: nat, F: nat)
    requires Shifted(g, h, k)
    ensures Shifted(g, h.(S := S, F := F), k)
  {
    var t := h.(S := S, F := F);
    forall s: nat, c
      ensures InSlot(t, s, c) <==> InSlot(h, s, c)
    {
      assert s < MAX_SLOTS && |h.slots| == MAX_SLOTS ==> Bucket(t, s) == Bucket(h, s);
    }
    forall s | 0 <= s < MAX_SLOTS
      ensures SlotDistinct(t, s)
    {
      assert SlotDistinct(h, s);
    }
  }

  /** qfq_slot_scan and the new start time of the group. */
  lemma ScanOk(cs: Classes, g: Grp, i: nat, mid: Grp, k: nat, d: nat, F: nat)
    requires WheelOk(cs, g, i) && Stored(cs, g, i) && Scan(g, mid, k) && Front(mid, d)
    ensures d in cs && RoundDown(cs[d].S, SlotSize(i)) == SlotAt(g.S, k, SlotSize(i))
    ensures var h := mid.(S := SlotAt(g.S, k, SlotSize(i)), F := F); WheelOk(cs, h, i) && Stored(cs, h, i)
  {
    hide Wheel, InSlot, SlotDistinct, SlotAt, RoundDown, SlotSize, Bucket;
    var h := mid.(S := SlotAt(g.S, k, SlotSize(i)), F := F);
    ScanShifts(g, mid, k);
    SameSlots(g, mid, k, h.S, F);
    ShiftOk(cs, g, i, h, k);
    FrontMoved(mid, h, d);
    FrontBelongs(cs, h, i, d);
  }

  lemma FrontMoved(g: Grp, h: Grp, d: nat)
    requires Front(g, d) && h == g.(S := h.S, F := h.F)
    ensures Front(h, d)
  {
  }

  lemma SlotOf(a: nat, b: nat, size: nat)
    requires size > 0 && RoundDown(a, size) == a && RoundDown(b, size) == b && a <= b
    ensures (b - a) / size >= 0 && b == SlotAt(a, (b - a) / size, size)
  {
    var p, q := a / size, b / size;
    assert (q - p) * size == b - a;
    if q < p {
      MulMono(q, p, size);
    }
    DivUnique(b - a, size, q - p);
  }

  lemma RoundMono(a: nat, b: nat, size: nat)
    requires size > 0 && a <= b
    ensures RoundDown(a, size) <= RoundDown(b, size)
  {
    RoundDownIs(a, size);
    RoundDownIs(b, size);
    var p, q := a / size, b / size;
    if q < p {
      assert (q + 1) * size == q * size + size;
      MulMono(q + 1, p, size);
    }
  }

  /** `mid` is the wheel `g` turned back by `k` slots. */
  ghost predicate TurnedBack(g: Grp, mid: Grp, k: nat)
  {
    && Wheel(g) && Wheel(mid) && (forall s :: s in g.full ==> s + k < MAX_SLOTS)
    && forall s :: 0 <= s < MAX_SLOTS ==> Bucket(mid, s) == if s < k then [] else Bucket(g, s - k)
  }

  lemma TurnedBackSlots(g: Grp, mid: Grp, k: nat)
    requires TurnedBack(g, mid, k) && forall s :: 0 <= s < MAX_SLOTS ==> SlotDistinct(g, s)
    ensures forall s: nat, c :: InSlot(mid, s, c) ==> k <= s && InSlot(g, s - k, c)
    ensures forall s: nat, c :: InSlot(g, s, c) ==> InSlot(mid, s + k, c)
    ensures forall s :: 0 <= s < MAX_SLOTS ==> SlotDistinct(mid, s)
  {
    forall s: nat, c | InSlot(g, s, c)
      ensures InSlot(mid, s + k, c)
    {
      assert s in g.full;
      assert Bucket(mid, s + k) == Bucket(g, s + k - k);
    }
    forall s | 0 <= s < MAX_SLOTS
      ensures SlotDistinct(mid, s)
    {
      assert k <= s ==> SlotDistinct(g, s - k);
    }
  }

  /** qfq_slot_rotate and the earlier start time of the group. */
  lemma RotateOk(cs: Classes, g: Grp, i: nat, mid: Grp, k: nat)
    requires WheelOk(cs, g, i) && Stored(cs, g, i) && TurnedBack(g, mid, k) && g.S == SlotAt(mid.S, k, SlotSize(i))
    ensures WheelOk(cs, mid, i) && Stored(cs, mid, i)
  {
    hide Wheel, InSlot, SlotDistinct, SlotAt, RoundDown, SlotSize, Bucket;
    TurnedBackSlots(g, mid, k);
    ShiftBackOk(cs, g, i, mid, k);
  }
}
