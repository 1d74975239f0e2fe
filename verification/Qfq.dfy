/** The QFQ scheduler of sys/netinet/ipfw/dn_sched_qfq.c. */
module Qfq {
  import opened Basics
  import opened PacketQueue
  import opened QfqTime
  import opened QfqWheel
  import opened QfqMarks
  import opened QfqClasses

  /** What qfq_dequeue makes of the served class: dn_dequeue and then qfq_update_class. */
  function NextClass(cl: Class): (r: Class)
    requires cl.mq != []
  {
    var mq := cl.mq[1..];
    cl.(mq := mq, S := cl.F, F := if mq == [] then cl.F else cl.F + mq[0].len * cl.invW)
  }

  lemma NextClassOk(cl: Class)
    requires ClassOk(cl) && cl.mq != []
    ensures ClassOk(NextClass(cl))
  {
    hide SlotSize;
  }

  ghost predicate Idle(cs: Classes)
  {
    forall c :: c in cs ==> cs[c].mq == []
  }

  ghost predicate AllFront(gs: seq<Grp>)
  {
    forall i :: 0 <= i < |gs| ==> FrontOk(gs[i])
  }

  /** The packets of each class that have arrived are those served and then those queued. */
  ghost predicate Fifo(arrived: map<nat, seq<Packet>>, served: map<nat, seq<Packet>>, cs: Classes)
  {
    && arrived.Keys == cs.Keys == served.Keys
    && forall c :: c in cs ==> arrived[c] == served[c] + cs[c].mq
  }

  /** The invariant of the scheduler over whole runs. */
  ghost predicate QfqOk(V: nat, bm: Bitmaps, gs: seq<Grp>, cs: Classes)
  {
    GroupsOk(V, bm, gs) && ClassesOk(cs, gs) && AllFront(gs) && Started(V, bm, gs) && Near(V, cs)
  }

  /** A backlogged class starts, and an idle one has finished, no later than in the slot after the one
      of the virtual time. */
  ghost predicate NearOk(V: nat, cl: Class)
  {
    RoundDown(if cl.mq == [] then cl.F else cl.S, SlotSize(cl.grp)) <= RoundDown(V, SlotSize(cl.grp)) + SlotSize(cl.grp)
  }

  ghost predicate Near(V: nat, cs: Classes)
  {
    forall c :: c in cs ==> NearOk(V, cs[c])
  }

  lemma NearLater(V: nat, V': nat, cs: Classes)
    requires Near(V, cs) && V <= V'
    ensures Near(V', cs)
  {
    hide SlotSize, RoundDown;
    forall c | c in cs
      ensures NearOk(V', cs[c])
    {
      RoundMono(V, V', SlotSize(cs[c].grp));
    }
  }

  lemma NearOne(V: nat, cs: Classes, c: nat, cl: Class)
    requires Near(V, cs) && NearOk(V, cl)
    ensures Near(V, cs[c := cl])
  {
    hide NearOk;
  }

  lemma NearOf(V: nat, cs: Classes, c: nat)
    requires Near(V, cs) && c in cs
    ensures NearOk(V, cs[c])
  {
  }

  lemma NearGroups(V: nat, cs: Classes, gs: seq<Grp>)
    requires ClassesOk(cs, gs) && AllFront(gs) && Near(V, cs)
    ensures Soon(V, gs)
  {
    hide SlotSize, RoundDown, ClassOk, Bucket, Stored, InSlot, SlotDistinct;
    forall i: nat | Live(gs, i)
      ensures gs[i].S <= RoundDown(V, SlotSize(i)) + SlotSize(i)
    {
      OfClasses(cs, gs, i);
      OfWheel(gs[i]);
      assert FrontOk(gs[i]);
      var c := gs[i].slots[gs[i].front][0];
      FrontBelongs(cs, gs[i], i, c);
      assert NearOk(V, cs[c]);
    }
  }

  /** The next timestamps of a class that is served in a group that has started. */
  lemma NearServed(V: nat, cs: Classes, gs: seq<Grp>, g: nat, c: nat)
    requires Serving(cs, gs, g, c) && AllStamped(gs) && gs[g].S <= V && Near(V, cs)
    ensures Near(V, cs[c := NextClass(cs[c])])
  {
    hide SlotSize, RoundDown, ClassOk, Bucket, ClassesOk, Wheel, Front;
    ServeReady(cs, gs, g, c);
    assert Stamped(gs[g], g);
    RoundMono(gs[g].S, V, SlotSize(g));
    NearOne(V, cs, c, NextClass(cs[c]));
  }

  /** Work conservation: no ready group means no packet. */
  lemma NothingReady(V: nat, bm: Bitmaps, gs: seq<Grp>, cs: Classes)
    requires QfqOk(V, bm, gs, cs) && bm[ER] == {}
    ensures Idle(cs)
  {
    hide SlotSize, RoundDown, Wheel, ClassOk, SlotDistinct, InSlot;
    RangeOf(bm, gs);
    forall c | c in cs
      ensures cs[c].mq == []
    {
      InGroup(cs, gs, c);
      var i := cs[c].grp;
      OfClasses(cs, gs, i);
      assert !Live(gs, i);
      EmptyOk(cs, gs[i], i, gs[i]);
    }
  }

  /** The front class of a ready group. */
  lemma SomethingReady(V: nat, bm: Bitmaps, gs: seq<Grp>, cs: Classes, g: nat)
    requires QfqOk(V, bm, gs, cs) && g in bm[ER]
    ensures g < |gs| == GROUPS && Wheel(gs[g]) && gs[g].front < MAX_SLOTS && |gs[g].slots| == MAX_SLOTS
    ensures gs[g].slots[gs[g].front] != [] && Front(gs[g], gs[g].slots[gs[g].front][0])
    ensures var c := gs[g].slots[gs[g].front][0]; c in cs && cs[c].grp == g && cs[c].mq != []
    ensures Serving(cs, gs, g, gs[g].slots[gs[g].front][0]) && gs[g].S <= V
  {
    hide SlotSize, RoundDown, ClassOk, SlotDistinct, InSlot, Bucket;
    RangeOf(bm, gs);
    assert Live(gs, g);
    assert FrontOk(gs[g]);
    OfClasses(cs, gs, g);
    OfWheel(gs[g]);
    FrontBelongs(cs, gs[g], g, gs[g].slots[gs[g].front][0]);
  }

  ghost predicate Serving(cs: Classes, gs: seq<Grp>, g: nat, c: nat)
  {
    ClassesOk(cs, gs) && g < GROUPS && Front(gs[g], c) && c in cs && cs[c].mq != []
  }

  lemma ServeReady(cs: Classes, gs: seq<Grp>, g: nat, c: nat)
    requires Serving(cs, gs, g, c)
    ensures |gs| == GROUPS && Wheel(gs[g]) && |gs[g].slots| == MAX_SLOTS && Bucket(gs[g], 0) != []
    ensures cs[c].grp == g && ClassOk(NextClass(cs[c]))
    ensures RoundDown(cs[c].F, SlotSize(g)) == gs[g].S || RoundDown(cs[c].F, SlotSize(g)) == gs[g].S + SlotSize(g)
    ensures SlotSize(g) / SlotSize(g) == 1
  {
    hide Wheel, ClassOk, SlotSize, RoundDown, Bucket;
    OfClasses(cs, gs, g);
    FrontBelongs(cs, gs[g], g, c);
    InGroup(cs, gs, c);
    NextClassOk(cs[c]);
    NextSlot(cs, gs, g, c);
    DivUnique(SlotSize(g), SlotSize(g), 1);
  }

  lemma StepStays(cs: Classes, gs: seq<Grp>, g: nat, c: nat)
    requires Serving(cs, gs, g, c) && NextClass(cs[c]).mq != [] && RoundDown(cs[c].F, SlotSize(g)) == gs[g].S
    ensures ClassesOk(cs[c := NextClass(cs[c])], gs)
  {
    hide Wheel, ClassOk, SlotSize, RoundDown, Bucket, WheelOk, Stored, Front;
    ServeReady(cs, gs, g, c);
    OfClasses(cs, gs, g);
    ServeStays(cs, gs[g], g, c, NextClass(cs[c]));
    OneGroup(cs, gs, g, c, NextClass(cs[c]), gs[g]);
    assert gs[g := gs[g]] == gs;
  }

  lemma StepLeaves(cs: Classes, gs: seq<Grp>, g: nat, c: nat, h: Grp)
    requires Serving(cs, gs, g, c) && NextClass(cs[c]).mq == [] && Removed(gs[g], h)
    ensures ClassesOk(cs[c := NextClass(cs[c])], gs[g := h])
  {
    hide Wheel, ClassOk, SlotSize, RoundDown, Bucket, WheelOk, Stored, Front, Removed;
    ServeReady(cs, gs, g, c);
    OfClasses(cs, gs, g);
    ServeLeaves(cs, gs[g], g, c, NextClass(cs[c]), h);
    OneGroup(cs, gs, g, c, NextClass(cs[c]), h);
  }

  lemma StepMoves(cs: Classes, gs: seq<Grp>, g: nat, c: nat, mid: Grp, h: Grp)
    requires Serving(cs, gs, g, c) && NextClass(cs[c]).mq != [] && RoundDown(cs[c].F, SlotSize(g)) == gs[g].S + SlotSize(g)
    requires Removed(gs[g], mid) && Inserted(mid, h, c, 1)
    ensures ClassesOk(cs[c := NextClass(cs[c])], gs[g := h])
  {
    hide Wheel, ClassOk, SlotSize, RoundDown, Bucket, WheelOk, Stored, Front, Removed, Inserted;
    ServeReady(cs, gs, g, c);
    OfClasses(cs, gs, g);
    ServeMoves(cs, gs[g], g, c, NextClass(cs[c]), mid, h);
    OneGroup(cs, gs, g, c, NextClass(cs[c]), h);
  }

  /** All groups but `g` have a class in their front slot if they have any. */
  ghost predicate FrontBut(gs: seq<Grp>, g: nat)
  {
    forall i :: 0 <= i < |gs| && i != g ==> FrontOk(gs[i])
  }

  lemma FrontAgain(gs: seq<Grp>, g: nat, h: Grp, S: nat, F: nat)
    requires FrontBut(gs, g) && g < |gs| && FrontOk(h)
    ensures AllFront(gs[g := h.(S := S, F := F)])
  {
  }

  lemma Regrouped(cs: Classes, gs: seq<Grp>, g: nat, mid: Grp, k: nat, d: nat, F: nat)
    requires ClassesOk(cs, gs) && g < GROUPS && Scan(gs[g], mid, k) && Front(mid, d)
    ensures d in cs && RoundDown(cs[d].S, SlotSize(g)) == SlotAt(gs[g].S, k, SlotSize(g))
    ensures ClassesOk(cs, gs[g := mid.(S := SlotAt(gs[g].S, k, SlotSize(g)), F := F)])
  {
    hide WheelOk, Stored, Scan, Front, SlotAt, RoundDown, SlotSize, ClassOk;
    var h := mid.(S := SlotAt(gs[g].S, k, SlotSize(g)), F := F);
    OfClasses(cs, gs, g);
    ScanOk(cs, gs[g], g, mid, k, d, F);
    var gs' := gs[g := h];
    forall j | 0 <= j < GROUPS
      ensures WheelOk(cs, gs'[j], j) && Stored(cs, gs'[j], j)
    {
      assert j != g ==> WheelOk(cs, gs[j], j) && Stored(cs, gs[j], j);
    }
  }

  /** The class that is served: the front one of the lowest ready group, which has started. */
  ghost predicate Picked(V: nat, bm: Bitmaps, gs: seq<Grp>, cs: Classes, who: nat)
  {
    && who in cs && cs[who].mq != [] && cs[who].grp in bm[ER] && (forall i :: i in bm[ER] ==> cs[who].grp <= i)
    && cs[who].grp < |gs| && Front(gs[cs[who].grp], who) && gs[cs[who].grp].S <= V
  }

  /** The virtual time moved by the service of `len` bytes, or jumped ahead to the start of a group. */
  ghost predicate Advanced(oldV: nat, len: nat, V: nat, gs: seq<Grp>)
  {
    V == oldV + len * IWSUM || (V > oldV + len * IWSUM && exists i :: 0 <= i < |gs| && V == gs[i].S)
  }

  /** The virtual time and the sets after group `g` has sent `len` bytes and become `gs'[g]`. */
  ghost predicate MarksMoved(V: nat, bm: Bitmaps, gs: seq<Grp>, g: nat, len: nat, V': nat, bm': Bitmaps, gs': seq<Grp>)
  {
    && |gs| == |gs'| == GROUPS && g < GROUPS && gs' == gs[g := gs'[g]] && ReadyInRange(bm)
    && var now := V + len * IWSUM;
       var mid := MarksAfter(now, bm, gs, g, gs'[g]);
       && (forall j :: j in mid[IR] + mid[IB] ==> j < GROUPS)
       && V' == Jumped(now, mid, gs')
       && bm' == if mid[IR] + mid[IB] == {} then mid else MadeEligible(mid, V', V)
  }

  lemma ReleasedBy(V: nat, now: nat, bm: Bitmaps, gs: seq<Grp>, g: nat, h: Grp)
    requires Loose(V, bm, gs) && g in bm[ER] && |gs| == GROUPS && g < GROUPS && ReadyInRange(bm)
    ensures ReleasedIff(bm, gs, g, MarksAfter(now, bm, gs, g, h), gs[g := h])
  {
    hide Sets, ReleasedIff;
    ReleasedAfter(now, bm, gs, g, h);
  }

  lemma EligibleStarted(V: nat, now: nat, bm: Bitmaps, gs: seq<Grp>, g: nat, h: Grp, v: nat)
    requires Loose(V, bm, gs) && Started(V, bm, gs) && g in bm[ER] && g < |gs| && V <= now <= v
    requires |gs| == GROUPS && ReadyInRange(bm) && Loose(V, MarksAfter(now, bm, gs, g, h), gs[g := h]) && Soon(V, gs[g := h])
    ensures Started(v, MarksAfter(now, bm, gs, g, h), gs[g := h])
    ensures Started(v, MadeEligible(MarksAfter(now, bm, gs, g, h), v, V), gs[g := h])
  {
    hide SlotSize, RoundDown, MarksAfter, MadeEligible, BlockedOk, LateOk, AllStamped;
    ReadyNotBlocked(bm, gs, g);
    StartedRegrouped(V, now, bm, gs, g, h);
    StartedLater(now, v, MarksAfter(now, bm, gs, g, h), gs[g := h]);
    StartedEligible(V, v, MarksAfter(now, bm, gs, g, h), gs[g := h]);
  }

  /** A ready group. */
  lemma OfReady(V: nat, bm: Bitmaps, gs: seq<Grp>, g: nat)
    requires Loose(V, bm, gs) && g in bm[ER]
    ensures |gs| == GROUPS && ReadyInRange(bm) && AllStamped(gs) && g < GROUPS && gs[g].full != {}
    ensures Started(V, bm, gs) ==> gs[g].S <= V
  {
    RangeOf(bm, gs);
    assert Live(gs, g);
    assert g in bm[ER] + bm[EB];
  }

  lemma StayMarks(now: nat, bm: Bitmaps, gs: seq<Grp>, g: nat, h: Grp)
    requires |gs| == GROUPS && g < GROUPS && ReadyInRange(bm) && h.full != {} && h.S == gs[g].S
    ensures MarksAfter(now, bm, gs, g, h) == bm && gs[g := gs[g]] == gs
  {
  }

  lemma ReadyNotBlocked(bm: Bitmaps, gs: seq<Grp>, g: nat)
    requires Sets(bm, gs) && g in bm[ER]
    ensures g !in bm[EB]
  {
  }

  lemma JumpedAdvances(oldV: nat, len: nat, bm: Bitmaps, gs: seq<Grp>)
    requires |gs| == GROUPS && forall j :: j in bm[IR] + bm[IB] ==> j < GROUPS
    ensures Advanced(oldV, len, Jumped(oldV + len * IWSUM, bm, gs), gs)
  {
  }

  lemma LateRange(V: nat, bm: Bitmaps, gs: seq<Grp>)
    requires Loose(V, bm, gs)
    ensures |gs| == GROUPS && forall j :: j in bm[IR] + bm[IB] ==> j < GROUPS
  {
    RangeOf(bm, gs);
  }

  lemma ReadyRange(V: nat, bm: Bitmaps, gs: seq<Grp>, cs: Classes)
    requires QfqOk(V, bm, gs, cs)
    ensures |gs| == GROUPS && forall i :: i in bm[ER] ==> i < GROUPS
  {
    RangeOf(bm, gs);
  }

  lemma FifoServed(arrived: map<nat, seq<Packet>>, served: map<nat, seq<Packet>>, cs: Classes, c: nat)
    requires Fifo(arrived, served, cs) && c in cs && cs[c].mq != []
    ensures c in served && Fifo(arrived, served[c := served[c] + [cs[c].mq[0]]], cs[c := NextClass(cs[c])])
  {
    assert cs[c].mq == [cs[c].mq[0]] + cs[c].mq[1..];
  }

  /** The start time of a class has grown by the bytes that the class has sent, each worth the inverse of its
      weight, since it had sent nothing and started at `base`. */
  ghost predicate Paid(base: map<nat, int>, served: map<nat, seq<Packet>>, cs: Classes)
  {
    && base.Keys == served.Keys == cs.Keys
    && forall c :: c in cs ==> cs[c].S == base[c] + Bytes(served[c]) * cs[c].invW
  }

  lemma PaidServed(base: map<nat, int>, served: map<nat, seq<Packet>>, V: nat, bm: Bitmaps, gs: seq<Grp>, cs: Classes, c: nat)
    requires Paid(base, served, cs) && QfqOk(V, bm, gs, cs) && c in cs && cs[c].mq != []
    ensures Paid(base, served[c := served[c] + [cs[c].mq[0]]], cs[c := NextClass(cs[c])])
  {
    hide GroupsOk, ClassesOk, AllFront, Near, Started, Bytes;
    InGroup(cs, gs, c);
    var m := cs[c].mq[0];
    BytesMore(served[c], m);
    assert (Bytes(served[c]) + m.len) * cs[c].invW == Bytes(served[c]) * cs[c].invW + m.len * cs[c].invW;
  }

  lemma PaidStart(base: map<nat, int>, served: map<nat, seq<Packet>>, cs: Classes, c: nat, cl: Class)
    requires Paid(base, served, cs) && c in cs
    ensures c in served && Paid(base[c := cl.S - Bytes(served[c]) * cl.invW], served, cs[c := cl])
  {
    hide Bytes;
  }

  lemma PaidAppend(base: map<nat, int>, served: map<nat, seq<Packet>>, cs: Classes, c: nat, m: Packet)
    requires Paid(base, served, cs) && c in cs && cs[c].mq != []
    ensures Paid(base, served, cs[c := Arrived(cs[c], m, 0)])
  {
    hide Bytes;
  }

  lemma PaidNew(base: map<nat, int>, served: map<nat, seq<Packet>>, cs: Classes, c: nat, cl: Class)
    requires Paid(base, served, cs) && c !in cs && cl.S == 0
    ensures Paid(base[c := 0], served[c := []], cs[c := cl])
  {
    assert Bytes([]) == 0;
  }

  lemma PaidFree(base: map<nat, int>, served: map<nat, seq<Packet>>, arrived: map<nat, seq<Packet>>, cs: Classes, c: nat)
    requires Paid(base, served, cs) && Fifo(arrived, served, cs)
    ensures Paid(base - {c}, served - {c}, cs - {c}) && Fifo(arrived - {c}, served - {c}, cs - {c})
  {
    hide Bytes;
  }

  lemma WeightedSame(cs: Classes, weights: map<nat, nat>, wsum: nat, c: nat, cl: Class)
    requires Weighted(cs, weights, wsum) && c in cs && cl.invW == cs[c].invW
    ensures Weighted(cs[c := cl], weights, wsum)
  {
  }

  // ---------------------------------------------------------------- arrivals

  ghost predicate ReadyInRange(bm: Bitmaps)
  {
    forall j :: j in bm[ER] ==> j < GROUPS
  }

  /** What qfq_update_start gives. */
  ghost function StartTime(V: nat, bm: Bitmaps, gs: seq<Grp>, cl: Class): nat
    requires |gs| == GROUPS && forall j :: j in bm[ER] ==> j < GROUPS
  {
    var size := SlotSize(cl.grp);
    var roundedF := RoundDown(cl.F, size);
    var mask := MaskFrom(bm[ER], cl.grp);
    if cl.F > V && roundedF <= RoundDown(V, size) + size then cl.F
    else if mask != {} && roundedF > gs[First(mask)].F then gs[First(mask)].F
    else V
  }

  /** A class never starts later than both the virtual time and its last finish time. */
  lemma StartTimeBound(V: nat, bm: Bitmaps, gs: seq<Grp>, cl: Class)
    requires |gs| == GROUPS && forall j :: j in bm[ER] ==> j < GROUPS
    ensures StartTime(V, bm, gs, cl) <= V || V < StartTime(V, bm, gs, cl) <= cl.F
  {
    hide SlotSize, RoundDown;
    RoundDownIs(cl.F, SlotSize(cl.grp));
  }

  /** The start time of a class that has been idle stays near the virtual time. */
  lemma NearStart(V: nat, bm: Bitmaps, gs: seq<Grp>, cl: Class, m: Packet)
    requires |gs| == GROUPS && (forall j :: j in bm[ER] ==> j < GROUPS) && cl.mq == [] && NearOk(V, cl)
    ensures NearOk(V, Arrived(cl, m, StartTime(V, bm, gs, cl)))
  {
    hide SlotSize, RoundDown;
    var S := StartTime(V, bm, gs, cl);
    RoundDownIs(S, SlotSize(cl.grp));
    RoundDownIs(cl.F, SlotSize(cl.grp));
  }

  /** The start time does not depend on the packets of the class. */
  lemma StartsSame(V: nat, bm: Bitmaps, gs: seq<Grp>, cl: Class, m: Packet)
    requires |gs| == GROUPS && (forall j :: j in bm[ER] ==> j < GROUPS)
    ensures StartTime(V, bm, gs, cl.(mq := [m])) == StartTime(V, bm, gs, cl)
  {
  }

  /** When an idle class starts before its last finish time: that has passed, and a ready group, the next
      one, finishes before the slot of that time. It starts when that group finishes then, and otherwise at the
      later one of the virtual time and its last finish time. The guard against wrap-around never decides. */
  lemma EarlierIff(V: nat, bm: Bitmaps, gs: seq<Grp>, cl: Class)
    requires |gs| == GROUPS && (forall j :: j in bm[ER] ==> j < GROUPS) && cl.mq == [] && NearOk(V, cl)
    ensures var mask := MaskFrom(bm[ER], cl.grp);
            StartTime(V, bm, gs, cl) < cl.F <==>
              cl.F <= V && mask != {} && gs[First(mask)].F < RoundDown(cl.F, SlotSize(cl.grp))
    ensures var mask, S := MaskFrom(bm[ER], cl.grp), StartTime(V, bm, gs, cl);
            if S < cl.F then mask != {} && S == gs[First(mask)].F else S == Max(V, cl.F)
    ensures RoundDown(cl.F, SlotSize(cl.grp)) <= RoundDown(V, SlotSize(cl.grp)) + SlotSize(cl.grp)
  {
    hide SlotSize, RoundDown;
    RoundDownIs(cl.F, SlotSize(cl.grp));
  }

  /** The wheel of group `i` has room for a class that starts at `S`: the slot is one of 32, and if the
      start time of the group decreases, the group is ineligible and no class leaves the wheel. */
  ghost predicate Placeable(bm: Bitmaps, g: Grp, i: nat, S: nat)
  {
    var size := SlotSize(i);
    var r := RoundDown(S, size);
    g.full == {} ||
    if g.S <= S then (r - g.S) / size < MAX_SLOTS
    else (i in bm[IR] || i in bm[IB]) && forall s :: s in g.full ==> s + (g.S - r) / size < MAX_SLOTS
  }

  ghost predicate Room(V: nat, bm: Bitmaps, gs: seq<Grp>, cl: Class)
  {
    cl.grp < |gs| == GROUPS && ReadyInRange(bm) && Placeable(bm, gs[cl.grp], cl.grp, StartTime(V, bm, gs, cl))
  }

  /** An idle class has become backlogged; the virtual time catches up if nothing was backlogged. */
  ghost predicate Activated(V: nat, bm: Bitmaps, gs: seq<Grp>, cs: Classes, c: nat, m: Packet, V': nat, cs': Classes)
  {
    && |gs| == GROUPS && ReadyInRange(bm) && c in cs
    && var S := StartTime(V, bm, gs, cs[c]);
       && cs' == cs[c := Arrived(cs[c], m, S)]
       && V' == if Idle(cs) then Max(V, RoundDown(S, SlotSize(cs[c].grp))) else V
  }

  ghost function Arrived(cl: Class, m: Packet, S: nat): Class
  {
    if cl.mq != [] then cl.(mq := cl.mq + [m]) else cl.(mq := [m], S := S, F := S + m.len * cl.invW)
  }

  /** A packet joins a backlogged class. */
  lemma AppendOk(V: nat, bm: Bitmaps, gs: seq<Grp>, cs: Classes, c: nat, m: Packet)
    requires QfqOk(V, bm, gs, cs) && c in cs && cs[c].mq != [] && m.len <= cs[c].lmax
    ensures QfqOk(V, bm, gs, cs[c := cs[c].(mq := cs[c].mq + [m])])
  {
    hide Loose, Wheel, SlotSize, RoundDown, SlotAt, InSlot, SlotDistinct, Stored, Started;
    var cl := cs[c].(mq := cs[c].mq + [m]);
    var cs' := cs[c := cl];
    InGroup(cs, gs, c);
    NearOne(V, cs, c, cl);
    forall i | 0 <= i < GROUPS
      ensures WheelOk(cs', gs[i], i) && Stored(cs', gs[i], i)
    {
      AppendWheel(cs, gs[i], i, c, cl);
    }
  }

  lemma AppendWheel(cs: Classes, g: Grp, i: nat, c: nat, cl: Class)
    requires WheelOk(cs, g, i) && Stored(cs, g, i) && c in cs && cs[c].mq != [] && cl == cs[c].(mq := cl.mq) && cl.mq != []
    ensures WheelOk(cs[c := cl], g, i) && Stored(cs[c := cl], g, i)
  {
    hide Wheel, SlotSize, RoundDown, SlotAt, InSlot, SlotDistinct;
    forall s: nat, d | InSlot(g, s, d)
      ensures Belongs(cs[c := cl], g.S, i, d, s)
    {
      assert Belongs(cs, g.S, i, d, s);
    }
  }

  lemma ArrivedClassOk(cl: Class, m: Packet, S: nat)
    requires ClassOk(cl) && cl.mq == [] && m.len <= cl.lmax
    ensures ClassOk(Arrived(cl, m, S))
  {
    hide SlotSize;
  }

  /** An idle class is put in slot `slot` of the wheel `mid` of its group. */
  lemma PlacedOk(cs: Classes, gs: seq<Grp>, i: nat, c: nat, cl: Class, mid: Grp, slot: nat, h: Grp)
    requires ClassesOk(cs, gs) && i < GROUPS && c in cs && cs[c].mq == [] && cs[c].grp == i
    requires WheelOk(cs, mid, i) && Stored(cs, mid, i) && Inserted(mid, h, c, slot)
    requires ClassOk(cl) && cl.grp == i && cl.mq != [] && RoundDown(cl.S, SlotSize(i)) == SlotAt(mid.S, slot, SlotSize(i))
    ensures ClassesOk(cs[c := cl], gs[i := h])
  {
    hide ClassOk, WheelOk, Stored, Inserted, RoundDown, SlotSize, SlotAt;
    ArrivesOk(cs, mid, i, c, cl, slot, h);
    OneGroup(cs, gs, i, c, cl, h);
  }

  /** The class that becomes backlogged, in its new state. */
  ghost predicate Arriving(cs: Classes, gs: seq<Grp>, i: nat, c: nat, cl: Class)
  {
    && ClassesOk(cs, gs) && i < GROUPS && c in cs && cs[c].mq == [] && cs[c].grp == i
    && ClassOk(cl) && cl.grp == i && cl.mq != []
  }

  /** It joins a group that starts no later. */
  lemma JoinOk(V: nat, bm: Bitmaps, gs: seq<Grp>, cs: Classes, i: nat, c: nat, cl: Class, slot: nat, h: Grp)
    requires QfqOk(V, bm, gs, cs) && Arriving(cs, gs, i, c, cl) && gs[i].full != {} && gs[i].S <= cl.S && NearOk(V, cl)
    requires (RoundDown(cl.S, SlotSize(i)) - gs[i].S) / SlotSize(i) == slot
    requires Inserted(gs[i], h, c, slot) && h.S == gs[i].S && h.F == gs[i].F && h.full == gs[i].full + {slot}
    ensures QfqOk(V, bm, gs[i := h], cs[c := cl])
  {
    hide ClassOk, WheelOk, Stored, Inserted, RoundDown, SlotSize, SlotAt, Sets, BlockedOk, LateOk;
    OfClasses(cs, gs, i);
    NearOne(V, cs, c, cl);
    SlotIs(gs, i, cl.S);
    PlacedOk(cs, gs, i, c, cl, gs[i], slot, h);
    SameGroup(V, bm, gs, i, h);
    assert FrontOk(gs[i]);
  }

  lemma SlotIs(gs: seq<Grp>, i: nat, S: nat)
    requires |gs| == GROUPS && i < GROUPS && AllStamped(gs) && gs[i].S <= S
    ensures var slot := (RoundDown(S, SlotSize(i)) - gs[i].S) / SlotSize(i);
            slot >= 0 && RoundDown(S, SlotSize(i)) == SlotAt(gs[i].S, slot, SlotSize(i))
  {
    hide SlotSize, RoundDown, SlotAt;
    assert Stamped(gs[i], i);
    RoundDownIs(S, SlotSize(i));
    RoundMono(gs[i].S, S, SlotSize(i));
    SlotOf(gs[i].S, RoundDown(S, SlotSize(i)), SlotSize(i));
  }

  /** How far the wheel must be turned back for an earlier start time. */
  lemma BackIs(gs: seq<Grp>, i: nat, S: nat)
    requires |gs| == GROUPS && i < GROUPS && AllStamped(gs) && S < gs[i].S
    ensures var k := (gs[i].S - RoundDown(S, SlotSize(i))) / SlotSize(i);
            k >= 0 && gs[i].S == SlotAt(RoundDown(S, SlotSize(i)), k, SlotSize(i))
  {
    hide SlotSize, RoundDown, SlotAt;
    assert Stamped(gs[i], i);
    RoundDownIs(S, SlotSize(i));
    SlotOf(RoundDown(S, SlotSize(i)), gs[i].S, SlotSize(i));
  }

  lemma PlaceableBack(bm: Bitmaps, g: Grp, i: nat, S: nat)
    requires Placeable(bm, g, i, S) && g.full != {} && S < g.S
    ensures i in bm[IR] || i in bm[IB]
    ensures forall s :: s in g.full ==> s + (g.S - RoundDown(S, SlotSize(i))) / SlotSize(i) < MAX_SLOTS
  {
    hide SlotSize, RoundDown;
  }

  lemma ArrivingIn(cs: Classes, gs: seq<Grp>, i: nat, c: nat, cl: Class)
    requires Arriving(cs, gs, i, c, cl)
    ensures ClassesOk(cs, gs) && i < GROUPS && c in cs && |gs| == GROUPS
  {
    hide ClassOk, WheelOk, Stored;
  }

  /** Its group starts earlier than it did. */
  lemma ReopenOk(cs: Classes, gs: seq<Grp>, i: nat, c: nat, cl: Class, k: nat, mid: Grp, h: Grp)
    requires Arriving(cs, gs, i, c, cl) && TurnedBack(gs[i], mid, k) && Inserted(mid, h, c, 0)
    requires mid.S == RoundDown(cl.S, SlotSize(i)) && gs[i].S == SlotAt(mid.S, k, SlotSize(i))
    ensures ClassesOk(cs[c := cl], gs[i := h])
  {
    hide ClassesOk, ClassOk, WheelOk, Stored, Inserted, RoundDown, SlotSize, SlotAt, TurnedBack;
    OfClasses(cs, gs, i);
    RotateOk(cs, gs[i], i, mid, k);
    SlotBase(mid.S, SlotSize(i));
    PlacedOk(cs, gs, i, c, cl, mid, 0, h);
  }

  /** Its group had no classes. */
  lemma OpenOk(cs: Classes, gs: seq<Grp>, i: nat, c: nat, cl: Class, mid: Grp, h: Grp)
    requires Arriving(cs, gs, i, c, cl) && gs[i].full == {} && mid == gs[i].(S := mid.S, F := mid.F) && Inserted(mid, h, c, 0)
    requires mid.S == RoundDown(cl.S, SlotSize(i))
    ensures ClassesOk(cs[c := cl], gs[i := h])
  {
    hide ClassesOk, ClassOk, WheelOk, Stored, Inserted, RoundDown, SlotSize, SlotAt;
    OfClasses(cs, gs, i);
    EmptyOk(cs, gs[i], i, mid);
    SlotBase(mid.S, SlotSize(i));
    PlacedOk(cs, gs, i, c, cl, mid, 0, h);
  }

  lemma PartsOf(V: nat, bm: Bitmaps, gs: seq<Grp>, cs: Classes)
    requires QfqOk(V, bm, gs, cs)
    ensures GroupsOk(V, bm, gs) && ClassesOk(cs, gs) && AllFront(gs) && Started(V, bm, gs) && Near(V, cs)
  {
  }

  lemma FrontKept(gs: seq<Grp>, i: nat, h: Grp)
    requires AllFront(gs) && i < |gs| && FrontOk(h)
    ensures AllFront(gs[i := h])
  {
  }

  /** The sets and groups after group `i` has got a new start time from an arrival. */
  ghost predicate Restarted(V: nat, bm: Bitmaps, gs: seq<Grp>, i: nat, roundedS: nat, bm': Bitmaps, gs': seq<Grp>)
  {
    && |gs| == |gs'| == GROUPS && i < GROUPS && gs' == gs[i := gs'[i]]
    && gs'[i].S == roundedS && gs'[i].F == roundedS + 2 * SlotSize(i) && gs'[i].full != {}
    && var bm1: Bitmaps := bm[IR := bm[IR] - {i}][IB := bm[IB] - {i}];
       && ReadyInRange(bm1)
       && var s := CalcState(V, bm1, gs', i); bm' == bm1[s := bm1[s] + {i}]
  }

  /** The sets and groups after a class of group `i` that starts at `S` has become backlogged. */
  ghost predicate Placed(V: nat, bm: Bitmaps, gs: seq<Grp>, i: nat, S: nat, bm': Bitmaps, gs': seq<Grp>)
  {
    && |gs| == |gs'| == GROUPS && i < GROUPS
    && if gs[i].full != {} && gs[i].S <= S then
         bm' == bm && gs' == gs[i := gs'[i]] && gs'[i].S == gs[i].S && gs'[i].F == gs[i].F
       else Restarted(V, bm, gs, i, RoundDown(S, SlotSize(i)), bm', gs')
  }

  /** What the invariant gains from an arrival in a group that gets a new start time. */
  lemma RestartedOk(oldV: nat, V: nat, bm: Bitmaps, gs: seq<Grp>, i: nat, roundedS: nat, bm': Bitmaps, gs': seq<Grp>, cs: Classes, c: nat, cl: Class)
    requires QfqOk(oldV, bm, gs, cs) && oldV <= V && i !in bm[ER] && i !in bm[EB] && NearOk(oldV, cl)
    requires Restarted(V, bm, gs, i, roundedS, bm', gs')
    requires GroupsOk(V, bm', gs') && ClassesOk(cs[c := cl], gs') && AllFront(gs')
    ensures QfqOk(V, bm', gs', cs[c := cl])
  {
    hide GroupsOk, ClassesOk, AllFront, NearOk, Started, Near, Restarted;
    NearOne(oldV, cs, c, cl);
    NearLater(oldV, V, cs[c := cl]);
    RestartedStarted(oldV, V, bm, gs, i, roundedS, bm', gs');
  }

  lemma RestartedStarted(oldV: nat, V: nat, bm: Bitmaps, gs: seq<Grp>, i: nat, roundedS: nat, bm': Bitmaps, gs': seq<Grp>)
    requires Restarted(V, bm, gs, i, roundedS, bm', gs') && Started(oldV, bm, gs) && oldV <= V && i !in bm[ER] && i !in bm[EB]
    ensures Started(V, bm', gs')
  {
    hide CalcState;
    var bm1: Bitmaps := bm[IR := bm[IR] - {i}][IB := bm[IB] - {i}];
    assert bm1[ER] == bm[ER] && bm1[EB] == bm[EB];
    StartedPut(V, bm1, gs, i, gs'[i]);
  }

  /** Some group is ready exactly when some class is backlogged. */
  lemma ReadyIffBacklogged(V: nat, bm: Bitmaps, gs: seq<Grp>, cs: Classes)
    requires QfqOk(V, bm, gs, cs)
    ensures bm[ER] == {} <==> Idle(cs)
  {
    hide QfqOk;
    if bm[ER] == {} {
      NothingReady(V, bm, gs, cs);
    } else {
      var g :| g in bm[ER];
      SomethingReady(V, bm, gs, cs, g);
    }
  }

  lemma ArrivesKeeps(arrived: map<nat, seq<Packet>>, served: map<nat, seq<Packet>>, cs: Classes,
                     weights: map<nat, nat>, wsum: nat, c: nat, m: Packet)
    requires Fifo(arrived, served, cs) && Weighted(cs, weights, wsum) && c in cs
    ensures c in arrived
    ensures forall S :: Fifo(arrived[c := arrived[c] + [m]], served, cs[c := Arrived(cs[c], m, S)])
    ensures forall S :: Weighted(cs[c := Arrived(cs[c], m, S)], weights, wsum)
    ensures cs[c].mq != [] ==> forall S :: Arrived(cs[c], m, S) == cs[c].(mq := cs[c].mq + [m])
  {
    assert served[c] + (cs[c].mq + [m]) == served[c] + cs[c].mq + [m];
  }

  lemma ReadyRangeOf(V: nat, bm: Bitmaps, gs: seq<Grp>)
    requires GroupsOk(V, bm, gs)
    ensures |gs| == GROUPS && forall j :: j in bm[ER] ==> j < GROUPS
  {
    RangeOf(bm, gs);
  }

  lemma SameWheel(g: Grp, h: Grp)
    requires Wheel(g) && h == g.(S := h.S, F := h.F)
    ensures Wheel(h)
  {
    assert forall s :: 0 <= s < MAX_SLOTS ==> Bucket(h, s) == Bucket(g, s);
  }

  lemma StampedOf(V: nat, bm: Bitmaps, gs: seq<Grp>, cs: Classes)
    requires QfqOk(V, bm, gs, cs)
    ensures |gs| == GROUPS && AllStamped(gs)
  {
    hide Sets, BlockedOk, LateOk, AllStamped;
  }

  lemma Ineligible(V: nat, bm: Bitmaps, gs: seq<Grp>, i: nat)
    requires GroupsOk(V, bm, gs) && (i in bm[IR] || i in bm[IB])
    ensures i !in bm[ER] && i !in bm[EB] && i < |gs| && gs[i].full != {}
  {
    IneligibleOnly(bm, gs, i);
    assert Live(gs, i);
  }

  lemma NotInSets(V: nat, bm: Bitmaps, gs: seq<Grp>, i: nat)
    requires GroupsOk(V, bm, gs) && i < |gs| == GROUPS && gs[i].full == {}
    ensures i !in bm[ER] && i !in bm[EB] && bm[IR := bm[IR] - {i}][IB := bm[IB] - {i}] == bm
  {
    InNoSet(bm, gs, i);
  }

  lemma ReadyWhenLive(V: nat, bm: Bitmaps, gs: seq<Grp>, i: nat)
    requires GroupsOk(V, bm, gs) && i < |gs| == GROUPS
    ensures gs[i].full != {} ==> bm[ER] != {}
  {
    assert Live(gs, i) <==> gs[i].full != {};
  }

  lemma TurnedToo(g: Grp, turned: Grp, mid: Grp, k: nat)
    requires TurnedBack(g, turned, k) && mid == turned.(S := mid.S, F := mid.F)
    ensures TurnedBack(g, mid, k)
  {
    assert forall s :: 0 <= s < MAX_SLOTS ==> Bucket(mid, s) == Bucket(turned, s);
  }

  // ---------------------------------------------------------------- queues come and go

  /** The inverse of the weight that qfq_new_queue uses. */
  function InvOf(w: nat): nat
  {
    if w == 0 || w > MAX_WEIGHT then ONE_FP else ONE_FP / w
  }

  /** The inverse of the inverse, in whole numbers. */
  function EffectiveWeight(w: nat): nat
  {
    if InvOf(w) == 0 then 0 else ONE_FP / InvOf(w)
  }

  /** The sum of the weights is kept and bounded. */
  ghost predicate Weighted(cs: Classes, weights: map<nat, nat>, wsum: nat)
  {
    && weights.Keys == cs.Keys && wsum <= MAX_WSUM && wsum == SumOf(weights, weights.Keys)
    && forall c :: c in cs ==> cs[c].invW > 0 && weights[c] == ONE_FP / cs[c].invW
  }

  /** A weight in bounds has the greatest inverse whose product with it is at most one, any other weight is
      taken for 1; and the weight that counts for the sum is what the inverse gives back in the same way, which
      is no less than the weight asked for. */
  lemma InverseIs(w: nat)
    ensures 0 < InvOf(w) <= ONE_FP
    ensures 1 <= w <= MAX_WEIGHT ==> w * InvOf(w) <= ONE_FP < w * (InvOf(w) + 1) && w <= EffectiveWeight(w)
    ensures !(1 <= w <= MAX_WEIGHT) ==> InvOf(w) == ONE_FP && EffectiveWeight(w) == 1
    ensures EffectiveWeight(w) * InvOf(w) <= ONE_FP < (EffectiveWeight(w) + 1) * InvOf(w)
  {
    var inv, v := InvOf(w), EffectiveWeight(w);
    if 1 <= w <= MAX_WEIGHT {
      DivIs(ONE_FP, w);
      DivIs(ONE_FP, inv);
      if v < w {
        MulMono(v + 1, w, inv);
      }
      MulMono(1, w, inv);
    }
  }

  lemma DivIs(a: nat, m: nat)
    requires m > 0
    ensures m * (a / m) <= a < m * (a / m + 1)
  {
    assert a == m * (a / m) + a % m;
  }

  lemma SumNew(weights: map<nat, nat>, c: nat, w: nat)
    requires c !in weights
    ensures SumOf(weights[c := w], weights[c := w].Keys) == SumOf(weights, weights.Keys) + w
  {
    var next := weights[c := w];
    assert next.Keys == weights.Keys + {c};
    SumAdd(next, weights.Keys, c);
    SumSame(weights, next, weights.Keys);
  }

  lemma SumFree(weights: map<nat, nat>, c: nat)
    requires c in weights
    ensures SumOf(weights, weights.Keys) == SumOf(weights - {c}, (weights - {c}).Keys) + weights[c]
  {
    var next := weights - {c};
    assert next[c := weights[c]] == weights;
    SumNew(next, c, weights[c]);
  }

  lemma WeightedNew(cs: Classes, weights: map<nat, nat>, wsum: nat, c: nat, i: nat, inv: nat, lmax: nat)
    requires Weighted(cs, weights, wsum) && c !in cs && inv > 0 && wsum + ONE_FP / inv <= MAX_WSUM
    ensures Weighted(cs[c := Class([], 0, 0, i, inv, lmax)], weights[c := ONE_FP / inv], wsum + ONE_FP / inv)
  {
    SumNew(weights, c, ONE_FP / inv);
  }

  lemma WeightedFree(cs: Classes, weights: map<nat, nat>, wsum: nat, c: nat)
    requires Weighted(cs, weights, wsum) && c in cs
    ensures c in weights && cs[c].invW > 0 && ONE_FP / cs[c].invW == weights[c] <= wsum
    ensures Weighted(cs - {c}, weights - {c}, wsum - weights[c])
  {
    SumFree(weights, c);
  }

  lemma FifoNew(arrived: map<nat, seq<Packet>>, served: map<nat, seq<Packet>>, cs: Classes, c: nat, cl: Class)
    requires Fifo(arrived, served, cs) && c !in cs && cl.mq == []
    ensures Fifo(arrived[c := []], served[c := []], cs[c := cl])
  {
  }

  lemma NewClassOk(V: nat, bm: Bitmaps, gs: seq<Grp>, cs: Classes, c: nat, inv: nat, lmax: nat)
    requires QfqOk(V, bm, gs, cs) && c !in cs && inv <= ONE_FP && lmax <= 2000
    ensures QfqOk(V, bm, gs, cs[c := Class([], 0, 0, CalcIndex(inv, lmax), inv, lmax)])
  {
    hide Loose, SlotSize, CalcIndex, WheelOk, Stored, Started, Near;
    var cl := Class([], 0, 0, CalcIndex(inv, lmax), inv, lmax);
    NearOne(V, cs, c, cl);
    CalcIndexFits(inv, lmax);
    CalcIndexIsLeast(inv, lmax, 0);
    forall i | 0 <= i < GROUPS
      ensures WheelOk(cs[c := cl], gs[i], i) && Stored(cs[c := cl], gs[i], i)
    {
      OfClasses(cs, gs, i);
      IdleElsewhere(cs, gs[i], i, c, cl);
    }
  }

  lemma FreeClassOk(V: nat, bm: Bitmaps, gs: seq<Grp>, cs: Classes, c: nat)
    requires QfqOk(V, bm, gs, cs) && c in cs && cs[c].mq == []
    ensures QfqOk(V, bm, gs, cs - {c})
  {
    hide Loose, SlotSize, WheelOk, Stored, ClassOk, Started, NearOk;
    forall i | 0 <= i < GROUPS
      ensures WheelOk(cs - {c}, gs[i], i) && Stored(cs - {c}, gs[i], i)
    {
      OfClasses(cs, gs, i);
      WheelWithout(cs, gs[i], i, c);
    }
  }

  lemma WheelWithout(cs: Classes, g: Grp, i: nat, c: nat)
    requires WheelOk(cs, g, i) && Stored(cs, g, i) && c in cs && cs[c].mq == []
    ensures WheelOk(cs - {c}, g, i) && Stored(cs - {c}, g, i)
  {
    hide Wheel, SlotSize, RoundDown, SlotAt, InSlot, SlotDistinct;
    forall s: nat, d | InSlot(g, s, d)
      ensures Belongs(cs - {c}, g.S, i, d, s)
    {
      assert Belongs(cs, g.S, i, d, s);
    }
  }

  lemma EmptyInv(gs: seq<Grp>)
    requires |gs| == GROUPS && forall i :: 0 <= i < GROUPS ==> gs[i] == Grp(0, 0, 0, {}, seq(MAX_SLOTS, _ => []))
    ensures QfqOk(0, [{}, {}, {}, {}], gs, map[])
  {
    forall i | 0 <= i < GROUPS
      ensures WheelOk(map[], gs[i], i) && Stamped(gs[i], i) && !Live(gs, i)
    {
      EmptyWheel(gs[i], i);
    }
  }

  lemma EmptyWheel(g: Grp, i: nat)
    requires g == Grp(0, 0, 0, {}, seq(MAX_SLOTS, _ => []))
    ensures WheelOk(map[], g, i) && Stamped(g, i)
  {
    hide SlotSize;
    assert forall s :: 0 <= s < MAX_SLOTS ==> Bucket(g, s) == [];
  }

  class Scheduler {
    const groups: seq<Group>
    var V: nat
    var bitmaps: Bitmaps
    var classes: Classes
    var wsum: nat
    ghost var weights: map<nat, nat>
    ghost var arrived: map<nat, seq<Packet>>
    ghost var served: map<nat, seq<Packet>>
    /** Where the start time of each class would have been when it had sent nothing. */
    ghost var base: map<nat, int>

    ghost predicate Layout()
    {
      && |groups| == GROUPS
      && (forall i :: 0 <= i < GROUPS ==> groups[i].index == i)
    }

    ghost function Gs(): (gs: seq<Grp>)
      reads groups
      ensures |gs| == |groups| && forall i :: 0 <= i < |gs| ==> gs[i] == groups[i].View()
    {
      seq(|groups|, i requires 0 <= i < |groups| reads groups => groups[i].View())
    }

    ghost predicate Valid()
      reads this, groups
    {
      && Layout()
      && QfqOk(V, bitmaps, Gs(), classes)
      && Fifo(arrived, served, classes)
      && Weighted(classes, weights, wsum)
      && Paid(base, served, classes)
    }

    /** The service of a class: while `base` stays, as it does in all services and until the class has become
        idle and a packet comes for it, its start time grows by the bytes it sends times the inverse of its
        weight, and it finishes when its next packet has been sent at that rate. */
    lemma ServiceLaw(c: nat)
      requires Valid() && c in classes
      ensures c in base && c in served && classes[c].S == base[c] + Bytes(served[c]) * classes[c].invW
      ensures classes[c].mq != [] ==> classes[c].F == classes[c].S + classes[c].mq[0].len * classes[c].invW
    {
      hide GroupsOk, ClassesOk, AllFront, Near, Started, Bytes, Fifo, Weighted;
      InGroup(classes, Gs(), c);
    }

    /** qfq_move_groups for the mask (1 << n) - 1 */
    method MoveGroups(n: nat, src: nat, dst: nat)
      requires src < 4 && dst < 4 && src != dst
      modifies `bitmaps
      ensures bitmaps == Moved(old(bitmaps), n, src, dst)
    {
      var mask := set j | j in bitmaps[src] && j < n;
      bitmaps := bitmaps[dst := bitmaps[dst] + mask];
      bitmaps := bitmaps[src := bitmaps[src] - mask];
    }

    method UnblockGroups(index: nat, oldF: nat, ghost oldV: nat)
      requires Layout() && |Gs()| == GROUPS && Sets(bitmaps, Gs()) && LateOk(oldV, bitmaps, Gs())
      requires BlockedBefore(bitmaps, Gs(), index, oldF)
      modifies `bitmaps
      ensures bitmaps == Unblocked(old(bitmaps), Gs(), index, oldF) && Releases(old(bitmaps), Gs(), index, oldF, bitmaps)
      ensures Sets(bitmaps, Gs()) && LateOk(oldV, bitmaps, Gs()) && BlockedOk(bitmaps, Gs())
    {
      hide Sets, LateOk, BlockedBefore, BlockedOk, Moved, Releases;
      RangeOf(bitmaps, Gs());
      UnblockedIff(bitmaps, Gs(), index, oldF);
      UnblockedOk(oldV, bitmaps, Gs(), index, oldF);
      var mask := MaskFrom(bitmaps[ER], index + 1);
      if mask != {} {
        var next := First(mask);
        if !(groups[next].F > oldF) {
          return;
        }
      }
      MoveGroups(index, EB, ER);
      MoveGroups(index, IB, IR);
    }

    method MakeEligible(oldV: nat)
      modifies `bitmaps
      ensures bitmaps == MadeEligible(old(bitmaps), V, oldV)
    {
      hide Moved;
      var vslot, oldVslot := V / MIN_SLOT, oldV / MIN_SLOT;
      if vslot != oldVslot {
        var n := HighDiff(vslot, oldVslot) + 1;
        MoveGroups(n, IR, ER);
        MoveGroups(n, IB, EB);
      }
    }

    method UpdateEligible(oldV: nat)
      requires Layout() && Loose(oldV, bitmaps, Gs()) && oldV <= V
      modifies `bitmaps, `V
      ensures GroupsOk(V, bitmaps, Gs())
      ensures V == Jumped(old(V), old(bitmaps), Gs()) && bitmaps[EB] + bitmaps[IB] == old(bitmaps[EB] + bitmaps[IB])
      ensures bitmaps == if old(bitmaps[IR] + bitmaps[IB]) == {} then old(bitmaps) else MadeEligible(old(bitmaps), V, oldV)
    {
      hide Sets, LateOk, BlockedOk, AllStamped, MadeEligible;
      RangeOf(bitmaps, Gs());
      UpdateEligibleOk(oldV, V, bitmaps, Gs());
      EligibleBlocked(Jumped(V, bitmaps, Gs()), oldV, bitmaps);
      var ineligible := bitmaps[IR] + bitmaps[IB];
      if ineligible != {} {
        if bitmaps[ER] == {} {
          var g := First(ineligible);
          if groups[g].S > V {
            V := groups[g].S;
          }
        }
        MakeEligible(oldV);
      }
    }

    /** Only group `g` may differ from `gs`, and not in its timestamps. */
    ghost predicate Turned(gs: seq<Grp>, g: nat)
      reads groups
    {
      g < |gs| == |groups| && Gs() == gs[g := groups[g].View()] && groups[g].S == gs[g].S && groups[g].F == gs[g].F
    }

    method UpdateClass(g: nat, c: nat, ghost cs: Classes) returns (changed: bool)
      requires Layout() && Serving(cs, Gs(), g, c)
      requires classes == cs[c := cs[c].(mq := cs[c].mq[1..])]
      modifies `classes, groups[g]
      ensures classes == cs[c := NextClass(cs[c])]
      ensures Turned(old(Gs()), g) && ClassesOk(classes, Gs())
      ensures !changed ==> Gs() == old(Gs())
    {
      hide ClassesOk, Wheel, Front, ClassOk, SlotSize, RoundDown, Bucket;
      ghost var gs := Gs();
      ServeReady(cs, gs, g, c);
      classes := classes[c := classes[c].(S := classes[c].F)];
      if classes[c].mq == [] {
        groups[g].FrontSlotRemove();
        StepLeaves(cs, gs, g, c, groups[g].View());
        return true;
      } else {
        var len := classes[c].mq[0].len;
        classes := classes[c := classes[c].(F := classes[c].S + len * classes[c].invW)];
        var roundedS := RoundDown(classes[c].S, SlotSize(g));
        if roundedS == groups[g].S {
          StepStays(cs, gs, g, c);
          return false;
        }
        groups[g].FrontSlotRemove();
        ghost var mid := groups[g].View();
        assert groups[g].SlotFor(roundedS) == 1;
        groups[g].SlotInsert(c, roundedS);
        StepMoves(cs, gs, g, c, mid, groups[g].View());
        return true;
      }
    }

    /** qfq_calc_state: the number of a set says whether the group is ineligible and whether the lowest ready
        group from it on finishes before it. */
    function StateOf(i: nat): (s: nat)
      requires Layout() && i < GROUPS && forall j :: j in bitmaps[ER] ==> j < GROUPS
      reads this, groups
      ensures s < 4 && (s == IR || s == IB <==> V < groups[i].S)
      ensures s == EB || s == IB <==> exists h: nat :: Next(bitmaps, h, i) && h < GROUPS && groups[h].F < groups[i].F
      ensures i !in bitmaps[ER] && (s == EB || s == IB) ==> Blocked(bitmaps, Gs(), i)
    {
      NextIs(bitmaps, Gs(), i);
      var state := if groups[i].S > V then IR else ER;
      var mask := MaskFrom(bitmaps[ER], i);
      if mask != {} then
        var next := First(mask);
        if groups[i].F > groups[next].F then state + EB else state
      else state
    }

    lemma StateIsCalc(i: nat)
      requires Layout() && i < GROUPS && forall j :: j in bitmaps[ER] ==> j < GROUPS
      ensures StateOf(i) == CalcState(V, bitmaps, Gs(), i)
    {
    }

    /** A served group with a later front slot gets new timestamps and goes to the set they call for. */
    method Restamp(g: nat, roundedS: nat, ghost gs: seq<Grp>, ghost oldV: nat)
      requires Layout() && Loose(oldV, bitmaps, gs) && oldV <= V && g in bitmaps[ER] && g < |gs| == GROUPS
      requires Gs() == gs[g := groups[g].View()] && groups[g].full != {} && RoundDown(roundedS, SlotSize(g)) == roundedS
      modifies `bitmaps, groups[g]
      ensures groups[g].View() == old(groups[g].View()).(S := roundedS, F := roundedS + 2 * SlotSize(g))
      ensures Gs() == gs[g := groups[g].View()]
      ensures Sets(bitmaps, Gs()) && LateOk(oldV, bitmaps, Gs()) && AllStamped(Gs())
      ensures BlockedBefore(bitmaps, Gs(), g, gs[g].F)
      ensures var bm: Bitmaps := old(bitmaps)[ER := old(bitmaps)[ER] - {g}];
              && (forall j :: j in bm[ER] ==> j < GROUPS)
              && var s := CalcState(V, bm, Gs(), g); bitmaps == bm[s := bm[s] + {g}]
    {
      hide SlotSize, RoundDown, Sets, BlockedOk, LateOk, AllStamped, BlockedBefore, CalcState;
      RangeOf(bitmaps, gs);
      groups[g].S := roundedS;
      groups[g].F := roundedS + 2 * SlotSize(g);
      ReplaceOk(oldV, V, bitmaps, gs, g, groups[g].View());
      bitmaps := bitmaps[ER := bitmaps[ER] - {g}];
      StateIsCalc(g);
      var s := StateOf(g);
      bitmaps := bitmaps[s := bitmaps[s] + {g}];
    }

    /** A served group without classes leaves the sets. */
    method Leave(g: nat, ghost gs: seq<Grp>, ghost oldV: nat)
      requires Layout() && Loose(oldV, bitmaps, gs) && g in bitmaps[ER] && Turned(gs, g) && groups[g].full == {}
      modifies `bitmaps
      ensures Loose(oldV, bitmaps, Gs()) && ReadyInRange(old(bitmaps)) && |gs| == GROUPS && g < GROUPS
      ensures bitmaps == MarksAfter(V, old(bitmaps), gs, g, groups[g].View())
    {
      hide Sets, BlockedOk, LateOk, AllStamped, BlockedBefore, Stamped, CalcState, Unblocked, SlotSize, RoundDown;
      RangeOf(bitmaps, gs);
      var oldF := groups[g].F;
      StillStamped(gs, g, groups[g].View());
      LeaveOk(oldV, bitmaps, gs, g, groups[g].View());
      bitmaps := bitmaps[ER := bitmaps[ER] - {g}];
      UnblockGroups(g, oldF, oldV);
    }

    /** A served group with a later front slot goes to the set that this calls for. */
    method Return(g: nat, roundedS: nat, ghost gs: seq<Grp>, ghost oldV: nat)
      requires Layout() && Loose(oldV, bitmaps, gs) && oldV <= V && g in bitmaps[ER] && Turned(gs, g)
      requires groups[g].full != {} && RoundDown(roundedS, SlotSize(g)) == roundedS && roundedS != groups[g].S
      modifies `bitmaps, groups[g]
      ensures groups[g].View() == old(groups[g].View()).(S := roundedS, F := roundedS + 2 * SlotSize(g))
      ensures Loose(oldV, bitmaps, Gs()) && ReadyInRange(old(bitmaps)) && |gs| == GROUPS && g < GROUPS && Gs() == gs[g := groups[g].View()]
      ensures bitmaps == MarksAfter(V, old(bitmaps), gs, g, groups[g].View())
    {
      hide Sets, BlockedOk, LateOk, AllStamped, BlockedBefore, Stamped, CalcState, Unblocked, SlotSize, RoundDown;
      RangeOf(bitmaps, gs);
      var oldF := groups[g].F;
      Restamp(g, roundedS, gs, oldV);
      UnblockGroups(g, oldF, oldV);
    }

    /** qfq_slot_scan for the served group. */
    method ScanGroup(g: nat) returns (found: bool, d: nat, ghost k: nat)
      requires Layout() && g < GROUPS && Wheel(groups[g].View())
      modifies groups[g]
      ensures Gs() == old(Gs())[g := groups[g].View()] && FrontOk(groups[g].View())
      ensures groups[g].S == old(groups[g].S) && groups[g].F == old(groups[g].F) && (found <==> groups[g].full != {})
      ensures !found ==> Gs() == old(Gs())
      ensures found ==> Scan(old(groups[g].View()), groups[g].View(), k) && Front(groups[g].View(), d)
    {
      hide Wheel, Bucket;
      found, d, k := groups[g].SlotScan();
      OfWheel(groups[g].View());
    }

    /** The part of qfq_dequeue for a served group whose front slot may have changed. */
    method Regroup(g: nat, ghost gs: seq<Grp>, ghost oldV: nat)
      requires Layout() && Loose(oldV, bitmaps, gs) && oldV <= V && g in bitmaps[ER] && Turned(gs, g)
      requires ClassesOk(classes, Gs()) && FrontBut(gs, g)
      modifies `bitmaps, groups[g]
      ensures Loose(oldV, bitmaps, Gs()) && ClassesOk(classes, Gs()) && AllFront(Gs())
      ensures Gs() == gs[g := groups[g].View()] && ReadyInRange(old(bitmaps))
      ensures bitmaps == MarksAfter(V, old(bitmaps), gs, g, groups[g].View())
    {
      hide ClassesOk, Wheel, SlotSize, RoundDown, Bucket, SlotAt, Loose, MarksAfter, Scan, Front, FrontOk, FrontBut, AllFront, WheelOk, Stored, AllStamped;
      OfReady(oldV, bitmaps, gs, g);
      ghost var mid := Gs();
      OfClasses(classes, mid, g);
      var found, d, k := ScanGroup(g);
      ghost var h := groups[g].View();
      assert Gs() == mid[g := h] == gs[g := h];
      FrontAgain(gs, g, h, h.S, h.F);
      assert h == h.(S := h.S, F := h.F);
      if !found {
        Leave(g, gs, oldV);
      } else {
        Regrouped(classes, mid, g, h, k, d, h.F);
        var roundedS := RoundDown(classes[d].S, SlotSize(g));
        if groups[g].S == roundedS {
          SameGroup(oldV, bitmaps, gs, g, h);
          assert h == h.(S := roundedS, F := h.F);
          StayMarks(V, bitmaps, gs, g, h);
          return;
        }
        FrontAgain(gs, g, h, roundedS, roundedS + 2 * SlotSize(g));
        Regrouped(classes, mid, g, h, k, d, roundedS + 2 * SlotSize(g));
        RoundDownIs(classes[d].S, SlotSize(g));
        Return(g, roundedS, gs, oldV);
        assert Gs() == mid[g := h.(S := roundedS, F := roundedS + 2 * SlotSize(g))];
      }
    }

    /** qfq_dequeue from the front class of ready group `g` on, up to qfq_update_eligible. */
    method ServeFront(g: nat, c: nat) returns (p: Packet)
      requires Layout() && GroupsOk(V, bitmaps, Gs()) && AllFront(Gs()) && g in bitmaps[ER] && Serving(classes, Gs(), g, c)
      modifies `V, `bitmaps, `classes, groups
      ensures p == old(classes[c].mq[0]) && classes == old(classes)[c := NextClass(old(classes[c]))]
      ensures V == old(V) + p.len * IWSUM && ClassesOk(classes, Gs()) && AllFront(Gs()) && Loose(old(V), bitmaps, Gs())
      ensures Gs() == old(Gs())[g := groups[g].View()] && ReadyInRange(old(bitmaps))
      ensures bitmaps == MarksAfter(V, old(bitmaps), old(Gs()), g, groups[g].View())
    {
      hide ClassesOk, Loose, Front, NextClass, FrontOk, MarksAfter;
      ghost var cs, gs := classes, Gs();
      OfReady(V, bitmaps, gs, g);
      p := classes[c].mq[0];
      classes := classes[c := classes[c].(mq := classes[c].mq[1..])];
      ghost var oldV := V;
      V := V + p.len * IWSUM;
      var changed := UpdateClass(g, c, cs);
      if changed {
        Regroup(g, gs, oldV);
      } else {
        StayMarks(V, bitmaps, gs, g, gs[g]);
      }
    }

    /** qfq_dequeue from the front class of ready group `g` on. */
    method Serve(g: nat, c: nat) returns (p: Packet)
      requires Layout() && QfqOk(V, bitmaps, Gs(), classes) && g in bitmaps[ER] && Serving(classes, Gs(), g, c)
      modifies `V, `bitmaps, `classes, groups
      ensures QfqOk(V, bitmaps, Gs(), classes)
      ensures p == old(classes[c].mq[0]) && classes == old(classes)[c := NextClass(old(classes[c]))]
      ensures Advanced(old(V), p.len, V, Gs())
      ensures MarksMoved(old(V), old(bitmaps), old(Gs()), g, p.len, V, bitmaps, Gs())
      ensures ReleasedIff(old(bitmaps), old(Gs()), g, bitmaps, Gs())
    {
      hide ClassesOk, Loose, Front, NextClass, FrontOk, Jumped, MadeEligible, Advanced, Near, Started, Soon, MarksAfter, HeldBack;
      ghost var gs, bm, cs := Gs(), bitmaps, classes;
      OfReady(V, bitmaps, gs, g);
      NearServed(V, cs, gs, g, c);
      var oldV := V;
      p := ServeFront(g, c);
      ghost var now := V;
      LateRange(oldV, bitmaps, Gs());
      JumpedAdvances(oldV, p.len, bitmaps, Gs());
      NearGroups(oldV, classes, Gs());
      EligibleStarted(oldV, now, bm, gs, g, groups[g].View(), Jumped(now, bitmaps, Gs()));
      ReleasedBy(oldV, now, bm, gs, g, groups[g].View());
      UpdateEligible(oldV);
      NearLater(oldV, V, classes);
    }

    /** qfq_dequeue. It returns nothing exactly when no class is backlogged; otherwise the head packet
        of `who`, the front class of the lowest ready group. */
    method Dequeue() returns (m: Option<Packet>, ghost who: nat)
      requires Valid()
      modifies this, groups
      ensures Valid()
      ensures m == None <==> Idle(old(classes))
      ensures m == None ==> unchanged(this, groups)
      ensures m != None ==> Picked(old(V), old(bitmaps), old(Gs()), old(classes), who)
      ensures m != None ==> m.value == old(classes[who].mq[0]) && Advanced(old(V), m.value.len, V, Gs())
      ensures m != None ==> old(classes[who]).grp < |groups| && ReleasedIff(old(bitmaps), old(Gs()), old(classes[who]).grp, bitmaps, Gs())
      ensures m != None ==> MarksMoved(old(V), old(bitmaps), old(Gs()), old(classes[who]).grp, m.value.len, V, bitmaps, Gs())
      ensures m != None ==> classes == old(classes)[who := NextClass(old(classes[who]))]
      ensures m != None ==> served == old(served)[who := old(served[who]) + [m.value]]
      ensures arrived == old(arrived) && weights == old(weights) && wsum == old(wsum) && base == old(base)
    {
      hide QfqOk, Front, Fifo, Advanced, Weighted, MarksMoved, ReleasedIff, Paid;
      if bitmaps[ER] == {} {
        NothingReady(V, bitmaps, Gs(), classes);
        return None, 0;
      }
      ReadyRange(V, bitmaps, Gs(), classes);
      var g := First(bitmaps[ER]);
      SomethingReady(V, bitmaps, Gs(), classes, g);
      var c := groups[g].slots[groups[g].front][0];
      FifoServed(arrived, served, classes, c);
      WeightedSame(classes, weights, wsum, c, NextClass(classes[c]));
      PaidServed(base, served, V, bitmaps, Gs(), classes, c);
      var p := Serve(g, c);
      served := served[c := served[c] + [p]];
      m, who := Some(p), c;
    }

    method UpdateStart(c: nat)
      requires Layout() && c in classes && forall j :: j in bitmaps[ER] ==> j < GROUPS
      modifies `classes
      ensures classes == old(classes)[c := old(classes[c]).(S := StartTime(V, bitmaps, Gs(), old(classes[c])))]
    {
      hide SlotSize, RoundDown;
      var cl := classes[c];
      var size := SlotSize(cl.grp);
      var roundedF := RoundDown(cl.F, size);
      var limit := RoundDown(V, size) + size;
      if !(cl.F > V) || roundedF > limit {
        var mask := MaskFrom(bitmaps[ER], cl.grp);
        if mask != {} {
          var next := First(mask);
          if roundedF > groups[next].F {
            classes := classes[c := cl.(S := groups[next].F)];
            return;
          }
        }
        classes := classes[c := cl.(S := V)];
      } else {
        classes := classes[c := cl.(S := cl.F)];
      }
    }

    /** A group that gets a new start time, in the set that it calls for. */
    method Stamp(i: nat, roundedS: nat)
      requires Layout() && i < GROUPS && ReadyInRange(bitmaps) && Wheel(groups[i].View())
      modifies `bitmaps, groups[i]
      ensures groups[i].View() == old(groups[i].View()).(S := roundedS, F := roundedS + 2 * SlotSize(i)) && Wheel(groups[i].View())
      ensures Gs() == old(Gs())[i := groups[i].View()]
      ensures var s := CalcState(V, old(bitmaps), Gs(), i); bitmaps == old(bitmaps)[s := old(bitmaps)[s] + {i}]
    {
      hide Wheel, SlotSize, CalcState, Bucket;
      groups[i].S := roundedS;
      groups[i].F := roundedS + 2 * SlotSize(i);
      SameWheel(old(groups[i].View()), groups[i].View());
      StateIsCalc(i);
      var s := StateOf(i);
      bitmaps := bitmaps[s := bitmaps[s] + {i}];
    }

    /** The end of qfq_enqueue for a group that gets a new start time. */
    method StartGroup(i: nat, c: nat, roundedS: nat, ghost oldV: nat, ghost bm: Bitmaps, ghost gs: seq<Grp>)
      requires Layout() && i < GROUPS && GroupsOk(oldV, bm, gs) && i !in bm[ER] && i !in bm[EB]
      requires bitmaps == bm[IR := bm[IR] - {i}][IB := bm[IB] - {i}] && Gs() == gs[i := groups[i].View()]
      requires if gs[i].full == {} && bm[ER] == {} then V >= roundedS else V == oldV
      requires Wheel(groups[i].View()) && RoundDown(roundedS, SlotSize(i)) == roundedS
      modifies `bitmaps, groups[i]
      ensures GroupsOk(V, bitmaps, Gs()) && Gs() == gs[i := groups[i].View()] && FrontOk(groups[i].View())
      ensures var mid := old(groups[i].View()).(S := roundedS, F := roundedS + 2 * SlotSize(i));
              Inserted(mid, groups[i].View(), c, 0)
      ensures Restarted(V, bm, gs, i, roundedS, bitmaps, Gs())
    {
      hide GroupsOk, Wheel, SlotSize, RoundDown, CalcState, Bucket;
      ReadyRangeOf(oldV, bm, gs);
      Stamp(i, roundedS);
      ghost var mid := groups[i].View();
      assert Gs() == gs[i := mid];
      OfWheel(mid);
      assert groups[i].SlotFor(roundedS) == 0;
      groups[i].SlotInsert(c, roundedS);
      ghost var h := groups[i].View();
      assert 0 in h.full;
      CalcSame(V, old(bitmaps), gs[i := mid], i, h);
      assert gs[i := mid][i := h] == gs[i := h] == Gs();
      ArriveOk(oldV, bm, gs, i, V, h);
    }

    /** The class joins a group that already starts no later. */
    method Join(i: nat, c: nat, roundedS: nat, ghost cs: Classes)
      requires Layout() && QfqOk(V, bitmaps, Gs(), cs) && c in classes && classes == cs[c := classes[c]]
      requires Arriving(cs, Gs(), i, c, classes[c]) && groups[i].full != {} && groups[i].S <= classes[c].S
      requires NearOk(V, classes[c])
      requires roundedS == RoundDown(classes[c].S, SlotSize(i)) && Placeable(bitmaps, Gs()[i], i, classes[c].S)
      modifies groups[i]
      ensures QfqOk(V, bitmaps, Gs(), classes) && Gs() == old(Gs())[i := groups[i].View()]
      ensures groups[i].S == old(groups[i].S) && groups[i].F == old(groups[i].F)
    {
      hide QfqOk, ClassesOk, Wheel, SlotSize, RoundDown, Bucket, ClassOk, SlotAt;
      ghost var gs := Gs();
      OfClasses(cs, gs, i);
      StampedOf(V, bitmaps, gs, cs);
      SlotIs(gs, i, classes[c].S);
      groups[i].SlotInsert(c, roundedS);
      assert Gs() == gs[i := groups[i].View()];
      JoinOk(V, bitmaps, gs, cs, i, c, classes[c], groups[i].SlotFor(roundedS), groups[i].View());
    }

    /** The wheel of an ineligible group is turned back for a class that starts at `S`. */
    method TurnBack(i: nat, S: nat, roundedS: nat, ghost cs: Classes) returns (ghost k: nat)
      requires Layout() && i < GROUPS && AllStamped(Gs()) && ClassesOk(cs, Gs()) && groups[i].full != {} && S < groups[i].S
      requires roundedS == RoundDown(S, SlotSize(i)) && forall s :: s in groups[i].full ==> s + (groups[i].S - roundedS) / SlotSize(i) < MAX_SLOTS
      modifies `bitmaps, groups[i]
      ensures bitmaps == old(bitmaps)[IR := old(bitmaps)[IR] - {i}][IB := old(bitmaps)[IB] - {i}]
      ensures Gs() == old(Gs())[i := groups[i].View()] && TurnedBack(old(groups[i].View()), groups[i].View(), k) && Wheel(groups[i].View())
      ensures old(Gs())[i].S == SlotAt(roundedS, k, SlotSize(i))
    {
      hide ClassesOk, Wheel, SlotSize, RoundDown, Bucket, SlotAt;
      OfClasses(cs, Gs(), i);
      BackIs(Gs(), i, S);
      RoundDownIs(S, SlotSize(i));
      k := groups[i].SlotsBefore(roundedS);
      groups[i].SlotRotate(roundedS);
      bitmaps := bitmaps[IR := bitmaps[IR] - {i}];
      bitmaps := bitmaps[IB := bitmaps[IB] - {i}];
    }

    /** The class starts before its group, which is ineligible. */
    method Reopen(i: nat, c: nat, roundedS: nat, ghost cs: Classes)
      requires Layout() && QfqOk(V, bitmaps, Gs(), cs) && c in classes && classes == cs[c := classes[c]]
      requires Arriving(cs, Gs(), i, c, classes[c]) && groups[i].full != {} && classes[c].S < groups[i].S
      requires NearOk(V, classes[c])
      requires roundedS == RoundDown(classes[c].S, SlotSize(i)) && Placeable(bitmaps, Gs()[i], i, classes[c].S)
      modifies `bitmaps, groups[i]
      ensures QfqOk(V, bitmaps, Gs(), classes) && Restarted(V, old(bitmaps), old(Gs()), i, roundedS, bitmaps, Gs())
    {
      hide QfqOk, NearOk, GroupsOk, ClassesOk, Wheel, SlotSize, RoundDown, Bucket, ClassOk, SlotAt, Inserted, AllFront, FrontOk, Restarted, Arriving, Placeable, TurnedBack, AllStamped, WheelOk, Stored, Started, Near;
      ghost var gs, bm := Gs(), bitmaps;
      PartsOf(V, bm, gs, cs);
      StampedOf(V, bitmaps, gs, cs);
      ArrivingIn(cs, gs, i, c, classes[c]);
      OfClasses(cs, gs, i);
      PlaceableBack(bm, gs[i], i, classes[c].S);
      RoundDownIs(classes[c].S, SlotSize(i));
      ghost var k := TurnBack(i, classes[c].S, roundedS, cs);
      ghost var turned := groups[i].View();
      Ineligible(V, bm, gs, i);
      StartGroup(i, c, roundedS, V, bm, gs);
      ghost var mid := turned.(S := roundedS, F := roundedS + 2 * SlotSize(i));
      TurnedToo(gs[i], turned, mid, k);
      ReopenOk(cs, gs, i, c, classes[c], k, mid, groups[i].View());
      FrontKept(gs, i, groups[i].View());
      RestartedOk(V, V, bm, gs, i, roundedS, bitmaps, Gs(), cs, c, classes[c]);
    }

    /** The class is the first of its group. */
    method Open(i: nat, c: nat, roundedS: nat, ghost cs: Classes)
      requires Layout() && QfqOk(V, bitmaps, Gs(), cs) && c in classes && classes == cs[c := classes[c]]
      requires Arriving(cs, Gs(), i, c, classes[c]) && groups[i].full == {} && NearOk(V, classes[c])
      requires roundedS == RoundDown(classes[c].S, SlotSize(i))
      modifies `V, `bitmaps, groups[i]
      ensures QfqOk(V, bitmaps, Gs(), classes) && Restarted(V, old(bitmaps), old(Gs()), i, roundedS, bitmaps, Gs())
      ensures V == if old(bitmaps[ER]) == {} then Max(old(V), roundedS) else old(V)
    {
      hide QfqOk, NearOk, GroupsOk, ClassesOk, Wheel, SlotSize, RoundDown, Bucket, ClassOk, SlotAt, Inserted, AllFront, FrontOk, Restarted;
      ghost var gs, bm, oldV := Gs(), bitmaps, V;
      PartsOf(V, bm, gs, cs);
      OfClasses(cs, gs, i);
      RoundDownIs(classes[c].S, SlotSize(i));
      NotInSets(V, bm, gs, i);
      if bitmaps[ER] == {} && roundedS > V {
        V := roundedS;
      }
      StartGroup(i, c, roundedS, oldV, bm, gs);
      OpenOk(cs, gs, i, c, classes[c], gs[i].(S := roundedS, F := roundedS + 2 * SlotSize(i)), groups[i].View());
      FrontKept(gs, i, groups[i].View());
      RestartedOk(oldV, V, bm, gs, i, roundedS, bitmaps, Gs(), cs, c, classes[c]);
    }

    /** The part of qfq_enqueue after qfq_update_start. */
    method Place(c: nat, ghost cs: Classes)
      requires Layout() && QfqOk(V, bitmaps, Gs(), cs) && c in classes && classes == cs[c := classes[c]]
      requires classes[c].grp < GROUPS && Arriving(cs, Gs(), classes[c].grp, c, classes[c]) && NearOk(V, classes[c])
      requires Placeable(bitmaps, Gs()[classes[c].grp], classes[c].grp, classes[c].S)
      modifies `V, `bitmaps, groups
      ensures QfqOk(V, bitmaps, Gs(), classes)
      ensures Placed(V, old(bitmaps), old(Gs()), classes[c].grp, classes[c].S, bitmaps, Gs())
      ensures V == if old(bitmaps[ER]) == {} then Max(old(V), RoundDown(classes[c].S, SlotSize(classes[c].grp))) else old(V)
    {
      hide QfqOk, ClassesOk, SlotSize, RoundDown, ClassOk, GroupsOk, AllFront, Restarted, NearOk, Arriving;
      var i := classes[c].grp;
      PartsOf(V, bitmaps, Gs(), cs);
      ReadyWhenLive(V, bitmaps, Gs(), i);
      var roundedS := RoundDown(classes[c].S, SlotSize(i));
      if groups[i].full != {} {
        if !(groups[i].S > classes[c].S) {
          Join(i, c, roundedS, cs);
        } else {
          Reopen(i, c, roundedS, cs);
        }
      } else {
        Open(i, c, roundedS, cs);
      }
    }

    /** qfq_enqueue for a class that was idle; `cs` are the classes before the packet was queued. */
    method Activate(c: nat, m: Packet, ghost cs: Classes)
      requires Layout() && QfqOk(V, bitmaps, Gs(), cs) && c in cs && cs[c].mq == [] && Room(V, bitmaps, Gs(), cs[c])
      requires m.len <= cs[c].lmax && classes == cs[c := cs[c].(mq := [m])]
      modifies `V, `bitmaps, `classes, groups
      ensures QfqOk(V, bitmaps, Gs(), classes)
      ensures Activated(old(V), old(bitmaps), old(Gs()), cs, c, m, V, classes)
      ensures Placed(V, old(bitmaps), old(Gs()), classes[c].grp, classes[c].S, bitmaps, Gs())
    {
      hide QfqOk, ClassesOk, SlotSize, RoundDown, ClassOk, GroupsOk, AllFront, Idle, NearOk, Near, Placed, StartTime, Placeable;
      ReadyIffBacklogged(V, bitmaps, Gs(), cs);
      PartsOf(V, bitmaps, Gs(), cs);
      ghost var S := StartTime(V, bitmaps, Gs(), cs[c]);
      InGroup(cs, Gs(), c);
      ArrivedClassOk(cs[c], m, S);
      NearOf(V, cs, c);
      NearStart(V, bitmaps, Gs(), cs[c], m);
      StartsSame(V, bitmaps, Gs(), cs[c], m);
      UpdateStart(c);
      classes := classes[c := classes[c].(F := classes[c].S + m.len * classes[c].invW)];
      assert classes[c] == Arrived(cs[c], m, S);
      Place(c, cs);
    }

    /** qfq_enqueue; `drop` is the verdict of dn_enqueue. A class that was idle starts at the time that
        qfq_update_start gives it, which must have a place in the wheel of its group. */
    method Enqueue(c: nat, m: Packet, drop: bool) returns (dropped: bool)
      requires Valid() && c in classes && m.len <= classes[c].lmax
      requires classes[c].mq == [] ==> Room(V, bitmaps, Gs(), classes[c])
      modifies this, groups
      ensures Valid() && dropped == drop
      ensures drop ==> unchanged(this, groups)
      ensures served == old(served) && weights == old(weights) && wsum == old(wsum)
      ensures !drop ==> arrived == old(arrived)[c := old(arrived[c]) + [m]]
      ensures !drop && old(classes[c].mq) != [] ==> V == old(V) && bitmaps == old(bitmaps) && Gs() == old(Gs())
      ensures !drop && old(classes[c].mq) != [] ==> classes == old(classes)[c := Arrived(old(classes[c]), m, 0)]
      ensures !drop && old(classes[c].mq) == [] ==>
                && Activated(old(V), old(bitmaps), old(Gs()), old(classes), c, m, V, classes)
                && Placed(V, old(bitmaps), old(Gs()), classes[c].grp, classes[c].S, bitmaps, Gs())
      ensures base == if drop || old(classes[c].mq) != [] then old(base)
                      else old(base)[c := classes[c].S - Bytes(old(served)[c]) * classes[c].invW]
    {
      hide QfqOk, Fifo, Room, Idle, Weighted, Arrived, StartTime, RoundDown, SlotSize, Placed, Paid;
      if drop {
        return true;
      }
      dropped := false;
      ghost var cs := classes;
      ArrivesKeeps(arrived, served, cs, weights, wsum, c, m);
      arrived := arrived[c := arrived[c] + [m]];
      var idle := classes[c].mq == [];
      classes := classes[c := classes[c].(mq := classes[c].mq + [m])];
      if idle {
        assert classes[c].mq == [m];
        Activate(c, m, cs);
        PaidStart(base, served, cs, c, classes[c]);
        base := base[c := classes[c].S - Bytes(served[c]) * classes[c].invW];
      } else {
        assert classes == cs[c := Arrived(cs[c], m, 0)];
        AppendOk(V, bitmaps, Gs(), cs, c, m);
        PaidAppend(base, served, cs, c, m);
      }
    }

    /** qfq_new_queue: w and lmax are the parameters of the flowset, which qfq_new_fsk bounds. */
    method NewQueue(c: nat, w: nat, lmax: nat) returns (ok: bool)
      requires Valid() && c !in classes && lmax <= 2000
      modifies this
      ensures Valid()
      ensures var weight := EffectiveWeight(w);
              && ok == (old(wsum) + weight <= MAX_WSUM)
              && (ok ==> wsum == old(wsum) + weight && weights == old(weights)[c := weight])
      ensures ok ==> classes == old(classes)[c := Class([], 0, 0, CalcIndex(InvOf(w), lmax), InvOf(w), lmax)]
      ensures ok ==> V == old(V) && bitmaps == old(bitmaps) && arrived == old(arrived)[c := []] && served == old(served)[c := []]
      ensures ok ==> base == old(base)[c := 0]
      ensures !ok ==> unchanged(this)
    {
      hide QfqOk, CalcIndex, Weighted, Fifo, Paid;
      var w1 := if w == 0 || w > MAX_WEIGHT then 1 else w;
      var inv := ONE_FP / w1;
      InverseIs(w);
      var weight := ONE_FP / inv;
      if wsum + weight > MAX_WSUM {
        return false;
      }
      NewClassOk(V, bitmaps, Gs(), classes, c, inv, lmax);
      WeightedNew(classes, weights, wsum, c, CalcIndex(inv, lmax), inv, lmax);
      PaidNew(base, served, classes, c, Class([], 0, 0, CalcIndex(inv, lmax), inv, lmax));
      FifoNew(arrived, served, classes, c, Class([], 0, 0, CalcIndex(inv, lmax), inv, lmax));
      classes := classes[c := Class([], 0, 0, CalcIndex(inv, lmax), inv, lmax)];
      wsum := wsum + weight;
      weights := weights[c := weight];
      arrived, served, base := arrived[c := []], served[c := []], base[c := 0];
      ok := true;
    }

    /** qfq_free_queue for a queue without packets. */
    method FreeQueue(c: nat)
      requires Valid() && c in classes && classes[c].mq == []
      modifies this
      ensures Valid()
      ensures classes == old(classes) - {c} && wsum == old(wsum) - old(weights[c]) && weights == old(weights) - {c}
      ensures V == old(V) && bitmaps == old(bitmaps) && arrived == old(arrived) - {c} && served == old(served) - {c} && base == old(base) - {c}
    {
      hide QfqOk, Weighted, Paid, Fifo;
      PaidFree(base, served, arrived, classes, c);
      FreeClassOk(V, bitmaps, Gs(), classes, c);
      WeightedFree(classes, weights, wsum, c);
      wsum := wsum - ONE_FP / classes[c].invW;
      classes := classes - {c};
      weights := weights - {c};
      arrived, served, base := arrived - {c}, served - {c}, base - {c};
    }

    /** qfq_new_sched: an empty scheduler. */
    constructor ()
      ensures Valid() && fresh(this) && fresh(groups)
      ensures V == 0 && classes == map[] && wsum == 0 && bitmaps == [{}, {}, {}, {}]
    {
      var g: seq<Group> := [];
      while |g| < GROUPS
        invariant |g| <= GROUPS && fresh(g)
        invariant forall i :: 0 <= i < |g| ==> g[i].index == i && g[i].View() == Grp(0, 0, 0, {}, seq(MAX_SLOTS, _ => []))
        invariant forall i :: 0 <= i < |g| ==> Wheel(g[i].View())
      {
        var x := new Group(|g|);
        g := g + [x];
      }
      groups := g;
      V, bitmaps, classes, wsum, weights, arrived, served, base := 0, [{}, {}, {}, {}], map[], 0, map[], map[], map[], map[];
      new;
      EmptyInv(Gs());
    }
  }
}
