/** The four sets of groups of sys/netinet/ipfw/dn_sched_qfq.c: eligible or ineligible (its start
  time lies after the virtual time), ready or blocked (a higher group in ER finishes before it). */
module QfqMarks {
  import opened Basics
  import opened QfqTime
  import opened QfqWheel

  const ER := 0
  const IR := 1
  const EB := 2
  const IB := 3
  const GROUPS := 20

  type Bitmaps = bm: seq<set<nat>> | |bm| == 4 witness [{}, {}, {}, {}]

  ghost predicate Live(gs: seq<Grp>, i: nat)
  {
    i < |gs| && gs[i].full != {}
  }

  /** Each group with classes is in exactly one set, every other one in none. */
  ghost predicate Sets(bm: Bitmaps, gs: seq<Grp>)
  {
    && |gs| == GROUPS
    && (forall i :: i in bm[ER] ==> i < GROUPS && Live(gs, i))
    && (forall i :: i in bm[IR] ==> i < GROUPS && Live(gs, i))
    && (forall i :: i in bm[EB] ==> i < GROUPS && Live(gs, i))
    && (forall i :: i in bm[IB] ==> i < GROUPS && Live(gs, i))
    && (forall i :: Live(gs, i) ==> i in bm[ER] || i in bm[IR] || i in bm[EB] || i in bm[IB])
    && bm[ER] !! bm[IR] !! bm[EB] !! bm[IB]
  }

  /** The same but for group `g`, which is in no set. */
  ghost predicate SetsBut(bm: Bitmaps, gs: seq<Grp>, g: nat)
  {
    && |gs| == GROUPS
    && (forall i :: i in bm[ER] ==> i < GROUPS && i != g && Live(gs, i))
    && (forall i :: i in bm[IR] ==> i < GROUPS && i != g && Live(gs, i))
    && (forall i :: i in bm[EB] ==> i < GROUPS && i != g && Live(gs, i))
    && (forall i :: i in bm[IB] ==> i < GROUPS && i != g && Live(gs, i))
    && (forall i :: Live(gs, i) && i != g ==> i in bm[ER] || i in bm[IR] || i in bm[EB] || i in bm[IB])
    && bm[ER] !! bm[IR] !! bm[EB] !! bm[IB]
  }

  lemma TakeReady(bm: Bitmaps, gs: seq<Grp>, g: nat, h: Grp)
    requires Sets(bm, gs) && g in bm[ER] && g < GROUPS
    ensures SetsBut(bm[ER := bm[ER] - {g}], gs[g := h], g)
  {
  }

  lemma TakeLate(bm: Bitmaps, gs: seq<Grp>, g: nat, h: Grp)
    requires Sets(bm, gs) && g !in bm[ER] && g !in bm[EB] && g < GROUPS
    ensures SetsBut(bm[IR := bm[IR] - {g}][IB := bm[IB] - {g}], gs[g := h], g)
  {
  }

  lemma RangeOf(bm: Bitmaps, gs: seq<Grp>)
    requires Sets(bm, gs)
    ensures |gs| == GROUPS
    ensures forall i :: i in bm[ER] ==> i < GROUPS && Live(gs, i)
    ensures forall i :: i in bm[IR] + bm[IB] ==> i < GROUPS
    ensures bm[ER] == bm[IR] == bm[EB] == bm[IB] == {} ==> forall i :: !Live(gs, i)
    ensures forall i :: Live(gs, i) ==> i in bm[ER] || i in bm[IR] || i in bm[EB] || i in bm[IB]
  {
  }

  lemma PutSets(bm: Bitmaps, gs: seq<Grp>, g: nat, s: nat)
    requires SetsBut(bm, gs, g) && s < 4 && Live(gs, g)
    ensures Sets(bm[s := bm[s] + {g}], gs)
  {
  }

  ghost predicate Blocks(bm: Bitmaps, gs: seq<Grp>, h: nat, i: nat)
    requires |gs| == GROUPS && i < GROUPS
  {
    i < h < GROUPS && h in bm[ER] && gs[h].F < gs[i].F
  }

  ghost predicate Blocked(bm: Bitmaps, gs: seq<Grp>, i: nat)
    requires |gs| == GROUPS && i < GROUPS
  {
    exists h :: Blocks(bm, gs, h, i)
  }

  /** Every blocked group is blocked by a ready one. */
  ghost predicate BlockedOk(bm: Bitmaps, gs: seq<Grp>)
    requires |gs| == GROUPS
  {
    forall i :: i in bm[EB] + bm[IB] ==> i < GROUPS && Blocked(bm, gs, i)
  }

  /** Every ineligible group starts after the virtual time. */
  ghost predicate LateOk(V: nat, bm: Bitmaps, gs: seq<Grp>)
    requires |gs| == GROUPS
  {
    forall i :: i in bm[IR] + bm[IB] ==> i < GROUPS && V < gs[i].S
  }

  /** A group's timestamps are two slots apart and start at a slot boundary. */
  ghost predicate Stamped(g: Grp, i: nat)
  {
    RoundDown(g.S, SlotSize(i)) == g.S && (g.full != {} ==> g.F == g.S + 2 * SlotSize(i))
  }

  ghost predicate AllStamped(gs: seq<Grp>)
  {
    forall i :: 0 <= i < |gs| ==> Stamped(gs[i], i)
  }

  ghost predicate Working(bm: Bitmaps)
  {
    bm[ER] == {} ==> bm[IR] == {} && bm[EB] == {} && bm[IB] == {}
  }

  /** What holds inside qfq_dequeue, before qfq_update_eligible. */
  ghost predicate Loose(V: nat, bm: Bitmaps, gs: seq<Grp>)
  {
    Sets(bm, gs) && BlockedOk(bm, gs) && LateOk(V, bm, gs) && AllStamped(gs)
  }

  ghost predicate GroupsOk(V: nat, bm: Bitmaps, gs: seq<Grp>)
  {
    Loose(V, bm, gs) && Working(bm)
  }

  /** mask_from */
  function MaskFrom(b: set<nat>, from: nat): set<nat>
  {
    set j | j in b && from <= j
  }

  /** qfq_ffs on a non-empty bitmap */
  function First(b: set<nat>): (i: nat)
    requires b != {} && forall j :: j in b ==> j < GROUPS
    ensures i in b && forall j :: j in b ==> i <= j
  {
    assert exists j :: j in b && 0 <= j < GROUPS by {
      var j :| j in b;
    }
    LowBit(b, 0, GROUPS)
  }

  /** What qfq_calc_state gives; it relies on the numbers of the sets. */
  ghost function CalcState(V: nat, bm: Bitmaps, gs: seq<Grp>, i: nat): (s: nat)
    requires |gs| == GROUPS && i < GROUPS && forall j :: j in bm[ER] ==> j < GROUPS
    ensures s < 4
  {
    var late := if gs[i].S > V then 1 else 0;
    var mask := MaskFrom(bm[ER], i);
    if mask != {} && gs[i].F > gs[First(mask)].F then late + EB else late
  }

  /** Group `h` is the lowest ready one from `i` on. */
  ghost predicate Next(bm: Bitmaps, h: nat, i: nat)
  {
    h in bm[ER] && i <= h && forall k :: k in bm[ER] && i <= k ==> h <= k
  }

  lemma NextIs(bm: Bitmaps, gs: seq<Grp>, i: nat)
    requires |gs| == GROUPS && i < GROUPS && forall j :: j in bm[ER] ==> j < GROUPS
    ensures var mask := MaskFrom(bm[ER], i);
            && (mask != {} ==> Next(bm, First(mask), i) && forall h: nat :: Next(bm, h, i) ==> h == First(mask))
            && (mask == {} ==> forall h: nat :: !Next(bm, h, i))
            && (mask != {} && i !in bm[ER] && gs[First(mask)].F < gs[i].F ==> Blocked(bm, gs, i))
  {
    var mask := MaskFrom(bm[ER], i);
    if mask == {} {
      forall h: nat
        ensures !Next(bm, h, i)
      {
        assert h !in mask;
      }
    } else {
      forall k | k in bm[ER] && i <= k
        ensures First(mask) <= k
      {
        assert k in mask;
      }
      if i !in bm[ER] && gs[First(mask)].F < gs[i].F {
        assert Blocks(bm, gs, First(mask), i);
      }
    }
  }

  /** The computed set is one whose condition the group meets. */
  lemma CalcStateIs(V: nat, bm: Bitmaps, gs: seq<Grp>, i: nat)
    requires |gs| == GROUPS && i < GROUPS && i !in bm[ER] && forall j :: j in bm[ER] ==> j < GROUPS
    ensures var s := CalcState(V, bm, gs, i);
            && s < 4
            && (s == IR || s == IB <==> V < gs[i].S)
            && (s == EB || s == IB ==> Blocked(bm, gs, i))
            && (bm[ER] == {} ==> s == ER || s == IR)
  {
    var mask := MaskFrom(bm[ER], i);
    if mask != {} && gs[i].F > gs[First(mask)].F {
      assert Blocks(bm, gs, First(mask), i);
    }
  }

  /** qfq_move_groups for the mask (1 << n) - 1 */
  function Moved(bm: Bitmaps, n: nat, src: nat, dst: nat): (r: Bitmaps)
    requires src < 4 && dst < 4 && src != dst
    ensures forall k :: 0 <= k < 4 && k != src && k != dst ==> r[k] == bm[k]
    ensures forall j: nat :: j in r[dst] <==> j in bm[dst] || (j in bm[src] && j < n)
    ensures forall j: nat :: j in r[src] <==> j in bm[src] && n <= j
  {
    var mask := set j | j in bm[src] && j < n;
    bm[dst := bm[dst] + mask][src := bm[src] - mask]
  }

  // ---------------------------------------------------------------- qfq_unblock_groups

  ghost predicate StillBlocking(bm: Bitmaps, gs: seq<Grp>, index: nat, oldF: nat)
    requires |gs| == GROUPS && forall j :: j in bm[ER] ==> j < GROUPS
  {
    var mask := MaskFrom(bm[ER], index + 1);
    mask != {} && gs[First(mask)].F <= oldF
  }

  ghost function Unblocked(bm: Bitmaps, gs: seq<Grp>, index: nat, oldF: nat): Bitmaps
    requires |gs| == GROUPS && forall j :: j in bm[ER] ==> j < GROUPS
  {
    if StillBlocking(bm, gs, index, oldF) then bm else Moved(Moved(bm, index, EB, ER), index, IB, IR)
  }

  /** A blocked group may have lost the group `index`, which finished at `oldF`. */
  ghost predicate BlockedBefore(bm: Bitmaps, gs: seq<Grp>, index: nat, oldF: nat)
    requires |gs| == GROUPS
  {
    forall i :: i in bm[EB] + bm[IB] ==> i < GROUPS && (Blocked(bm, gs, i) || (i < index && oldF < gs[i].F))
  }

  lemma UnblockedOk(V: nat, bm: Bitmaps, gs: seq<Grp>, index: nat, oldF: nat)
    requires Sets(bm, gs) && LateOk(V, bm, gs) && BlockedBefore(bm, gs, index, oldF)
    ensures var t := Unblocked(bm, gs, index, oldF); Sets(t, gs) && LateOk(V, t, gs) && BlockedOk(t, gs)
  {
    var t := Unblocked(bm, gs, index, oldF);
    forall i | i in t[EB] + t[IB]
      ensures i < GROUPS && Blocked(t, gs, i)
    {
      assert i in bm[EB] + bm[IB];
      if Blocked(bm, gs, i) {
        var h :| Blocks(bm, gs, h, i);
        assert Blocks(t, gs, h, i);
      } else {
        assert Blocks(t, gs, First(MaskFrom(bm[ER], index + 1)), i);
      }
    }
  }

  /** Group `h` is the lowest ready one above `index`. */
  ghost predicate NextOver(bm: Bitmaps, h: nat, index: nat)
  {
    h in bm[ER] && index < h && forall k :: k in bm[ER] && index < k ==> h <= k
  }

  /** The lowest ready group above `index` finishes no later than `oldF`. */
  ghost predicate HeldBack(bm: Bitmaps, gs: seq<Grp>, index: nat, oldF: nat)
  {
    exists h: nat :: NextOver(bm, h, index) && h < |gs| && gs[h].F <= oldF
  }

  /** No set changes if the groups blocked by `index` are held back by the next one; otherwise exactly the blocked
      groups below `index` are released. */
  ghost predicate Releases(bm: Bitmaps, gs: seq<Grp>, index: nat, oldF: nat, bm': Bitmaps)
  {
    if HeldBack(bm, gs, index, oldF) then bm' == bm else
      forall i: nat ::
        && (i in bm'[ER] <==> i in bm[ER] || (i in bm[EB] && i < index)) && (i in bm'[EB] <==> i in bm[EB] && index <= i)
        && (i in bm'[IR] <==> i in bm[IR] || (i in bm[IB] && i < index)) && (i in bm'[IB] <==> i in bm[IB] && index <= i)
  }

  lemma UnblockedIff(bm: Bitmaps, gs: seq<Grp>, index: nat, oldF: nat)
    requires |gs| == GROUPS && forall j :: j in bm[ER] ==> j < GROUPS
    ensures Releases(bm, gs, index, oldF, Unblocked(bm, gs, index, oldF))
  {
    hide Moved;
    NextAbove(bm, gs, index);
  }

  lemma NextAbove(bm: Bitmaps, gs: seq<Grp>, index: nat)
    requires |gs| == GROUPS && forall j :: j in bm[ER] ==> j < GROUPS
    ensures var mask := MaskFrom(bm[ER], index + 1);
            && (mask != {} ==> NextOver(bm, First(mask), index) && forall h: nat :: NextOver(bm, h, index) ==> h == First(mask))
            && (mask == {} ==> forall h: nat :: !NextOver(bm, h, index))
  {
    var mask := MaskFrom(bm[ER], index + 1);
    forall k | k in bm[ER] && index + 1 <= k
      ensures k in mask && First(mask) <= k
    {
      assert k in mask;
    }
    assert mask != {} ==> First(mask) in mask;
  }

  // ---------------------------------------------------------------- qfq_update_eligible

  ghost function MadeEligible(bm: Bitmaps, V: nat, oldV: nat): Bitmaps
  {
    if V / MIN_SLOT == oldV / MIN_SLOT then bm else
      var n := HighDiff(V / MIN_SLOT, oldV / MIN_SLOT) + 1;
      Moved(Moved(bm, n, IR, ER), n, IB, EB)
  }

  /** Who stays ineligible starts after the new virtual time; who starts by then has moved. */
  lemma MadeEligibleOk(oldV: nat, V: nat, bm: Bitmaps, gs: seq<Grp>)
    requires Loose(oldV, bm, gs) && oldV <= V
    ensures var t := MadeEligible(bm, V, oldV);
            && Sets(t, gs) && BlockedOk(t, gs) && LateOk(V, t, gs)
            && bm[ER] <= t[ER]
            && forall i :: i in bm[IR] && i < |gs| && gs[i].S <= V ==> i in t[ER]
  {
    hide SlotSize, RoundDown, HighDiff;
    var t := MadeEligible(bm, V, oldV);
    forall i | i in bm[IR] + bm[IB] && gs[i].S <= V
      ensures i !in t[IR] + t[IB]
    {
      assert Stamped(gs[i], i);
      if HighDiff(V / MIN_SLOT, oldV / MIN_SLOT) < i {
        BeyondMask(oldV, V, gs[i].S, i);
      }
    }
    forall i | i in t[EB] + t[IB]
      ensures i < GROUPS && Blocked(t, gs, i)
    {
      assert i in bm[EB] + bm[IB];
      var h :| Blocks(bm, gs, h, i);
      assert Blocks(t, gs, h, i);
    }
  }

  /** The virtual time jumps to an ineligible group when nothing is eligible. */
  function Jumped(V: nat, bm: Bitmaps, gs: seq<Grp>): (v: nat)
    requires |gs| == GROUPS && forall j :: j in bm[IR] + bm[IB] ==> j < GROUPS
    ensures v >= V
  {
    if bm[IR] + bm[IB] != {} && bm[ER] == {} then
      var g := First(bm[IR] + bm[IB]);
      if gs[g].S > V then gs[g].S else V
    else V
  }

  /** Work conservation: after qfq_update_eligible some group is eligible and ready if any has classes. */
  lemma UpdateEligibleOk(oldV: nat, V: nat, bm: Bitmaps, gs: seq<Grp>)
    requires Loose(oldV, bm, gs) && oldV <= V
    ensures GroupsOk(Jumped(V, bm, gs), MadeEligible(bm, Jumped(V, bm, gs), oldV), gs)
    ensures bm[IR] + bm[IB] == {} ==> GroupsOk(V, bm, gs)
  {
    hide MadeEligible, AllStamped;
    var v := Jumped(V, bm, gs);
    var t := MadeEligible(bm, v, oldV);
    MadeEligibleOk(oldV, v, bm, gs);
    if bm[ER] == {} {
      NothingBlocked(bm, gs);
      if bm[IR] != {} {
        assert bm[IR] + bm[IB] == bm[IR];
        var g := First(bm[IR] + bm[IB]);
        assert g in t[ER];
      } else {
        assert forall i :: !Live(gs, i);
        assert forall k :: 0 <= k < 4 ==> t[k] == {};
      }
    }
  }

  // ---------------------------------------------------------------- eligible groups have started

  ghost predicate Started(V: nat, bm: Bitmaps, gs: seq<Grp>)
  {
    forall i :: i in bm[ER] + bm[EB] && i < |gs| ==> gs[i].S <= V
  }

  lemma StartedLater(V: nat, V': nat, bm: Bitmaps, gs: seq<Grp>)
    requires Started(V, bm, gs) && V <= V'
    ensures Started(V', bm, gs)
  {
  }

  /** No group starts later than in the next slot. */
  ghost predicate Soon(V: nat, gs: seq<Grp>)
  {
    forall i: nat :: Live(gs, i) ==> gs[i].S <= RoundDown(V, SlotSize(i)) + SlotSize(i)
  }

  /** qfq_make_eligible moves only groups that have started. */
  lemma StartedEligible(oldV: nat, V: nat, bm: Bitmaps, gs: seq<Grp>)
    requires Sets(bm, gs) && Started(V, bm, gs) && Soon(oldV, gs) && oldV <= V
    ensures Started(V, MadeEligible(bm, V, oldV), gs)
  {
    hide SlotSize, RoundDown, HighDiff;
    var t := MadeEligible(bm, V, oldV);
    forall i | i in t[ER] + t[EB] && i < |gs|
      ensures gs[i].S <= V
    {
      if i !in bm[ER] + bm[EB] {
        assert Live(gs, i);
        WithinMask(oldV, V, i);
      }
    }
  }

  lemma StartedUnblocked(V: nat, bm: Bitmaps, gs: seq<Grp>, index: nat, oldF: nat)
    requires |gs| == GROUPS && (forall j :: j in bm[ER] ==> j < GROUPS) && Started(V, bm, gs)
    ensures Started(V, Unblocked(bm, gs, index, oldF), gs)
  {
    var t := Unblocked(bm, gs, index, oldF);
    assert forall i :: i in t[ER] + t[EB] ==> i in bm[ER] + bm[EB];
  }

  /** A group goes to the set that qfq_calc_state gives. */
  lemma StartedPut(V: nat, bm: Bitmaps, gs: seq<Grp>, g: nat, h: Grp)
    requires |gs| == GROUPS && g < GROUPS && g !in bm[ER] && g !in bm[EB] && (forall j :: j in bm[ER] ==> j < GROUPS) && Started(V, bm, gs)
    ensures var s := CalcState(V, bm, gs[g := h], g);
            s < 4 && Started(V, bm[s := bm[s] + {g}], gs[g := h])
  {
    CalcStateIs(V, bm, gs[g := h], g);
    var s := CalcState(V, bm, gs[g := h], g);
    var t: Bitmaps := bm[s := bm[s] + {g}];
    forall i | i in t[ER] + t[EB] && i < |gs|
      ensures gs[g := h][i].S <= V
    {
      assert i != g ==> i in bm[ER] + bm[EB];
    }
  }

  /** The sets after the group `g` has been served, in qfq_dequeue up to qfq_update_eligible. */
  ghost function MarksAfter(now: nat, bm: Bitmaps, gs: seq<Grp>, g: nat, h: Grp): Bitmaps
    requires |gs| == GROUPS && g < GROUPS && forall j :: j in bm[ER] ==> j < GROUPS
  {
    var bm1: Bitmaps := bm[ER := bm[ER] - {g}];
    var gs' := gs[g := h];
    if h.full == {} then Unblocked(bm1, gs', g, gs[g].F)
    else if h.S == gs[g].S then bm
    else
      var s := CalcState(now, bm1, gs', g);
      var bm2: Bitmaps := bm1[s := bm1[s] + {g}];
      assert forall j :: j in bm2[ER] ==> j < GROUPS;
      Unblocked(bm2, gs', g, gs[g].F)
  }

  /** Which blocked groups a service of group `g` releases, when that becomes `gs'[g]`: those below it, if its
      timestamps change and no other group above holds them back. */
  ghost predicate ReleasedIff(bm: Bitmaps, gs: seq<Grp>, g: nat, bm': Bitmaps, gs': seq<Grp>)
    requires g < |gs| && g < |gs'|
  {
    && (forall i: nat :: i in bm[EB] + bm[IB] ==>
          (i in bm'[EB] + bm'[IB] <==> g < i || (gs'[g].full != {} && gs'[g].S == gs[g].S) || HeldBack(bm, gs, g, gs[g].F)))
    && (forall i: nat :: i in bm'[EB] + bm'[IB] ==> i in bm[EB] + bm[IB] || i == g)
  }

  lemma ReleasedAfter(now: nat, bm: Bitmaps, gs: seq<Grp>, g: nat, h: Grp)
    requires |gs| == GROUPS && g < GROUPS && (forall j :: j in bm[ER] ==> j < GROUPS) && g in bm[ER] && Sets(bm, gs)
    ensures ReleasedIff(bm, gs, g, MarksAfter(now, bm, gs, g, h), gs[g := h])
  {
    hide CalcState, Unblocked;
    var bm1: Bitmaps := bm[ER := bm[ER] - {g}];
    var gs' := gs[g := h];
    var s := CalcState(now, bm1, gs', g);
    var bm2: Bitmaps := bm1[s := bm1[s] + {g}];
    assert forall j :: j in bm2[ER] ==> j < GROUPS;
    UnblockedIff(bm1, gs', g, gs[g].F);
    UnblockedIff(bm2, gs', g, gs[g].F);
    HeldSame(bm, gs, g, bm1, gs', gs[g].F);
    HeldSame(bm, gs, g, bm2, gs', gs[g].F);
  }

  lemma HeldSame(bm: Bitmaps, gs: seq<Grp>, g: nat, bm': Bitmaps, gs': seq<Grp>, oldF: nat)
    requires |gs'| == |gs| && (forall h :: g < h < |gs| ==> gs'[h] == gs[h]) && forall h: nat :: g < h ==> (h in bm[ER] <==> h in bm'[ER])
    ensures HeldBack(bm, gs, g, oldF) <==> HeldBack(bm', gs', g, oldF)
  {
    assert forall h: nat :: NextOver(bm, h, g) <==> NextOver(bm', h, g);
  }

  /** qfq_make_eligible blocks and releases no group. */
  lemma EligibleBlocked(V: nat, oldV: nat, bm: Bitmaps)
    ensures MadeEligible(bm, V, oldV)[EB] + MadeEligible(bm, V, oldV)[IB] == bm[EB] + bm[IB]
  {
    hide Moved, HighDiff;
  }

  lemma StartedRegrouped(V: nat, now: nat, bm: Bitmaps, gs: seq<Grp>, g: nat, h: Grp)
    requires |gs| == GROUPS && g < GROUPS && (forall j :: j in bm[ER] ==> j < GROUPS) && g in bm[ER] && g !in bm[EB]
    requires Started(V, bm, gs) && V <= now
    ensures Started(now, MarksAfter(now, bm, gs, g, h), gs[g := h])
  {
    hide CalcState, Unblocked;
    var bm1: Bitmaps := bm[ER := bm[ER] - {g}];
    var gs' := gs[g := h];
    assert forall i :: i in bm1[ER] + bm1[EB] ==> i != g && i in bm[ER] + bm[EB];
    StartedUnblocked(now, bm1, gs', g, gs[g].F);
    StartedPut(now, bm1, gs, g, h);
    var s := CalcState(now, bm1, gs', g);
    var bm2: Bitmaps := bm1[s := bm1[s] + {g}];
    assert forall j :: j in bm2[ER] ==> j < GROUPS;
    StartedUnblocked(now, bm2, gs', g, gs[g].F);
    if h.full != {} && h.S == gs[g].S {
      assert gs[g].S <= V by { assert g in bm[ER] + bm[EB]; }
    }
  }

  lemma BlockedNeedsReady(bm: Bitmaps, gs: seq<Grp>, i: nat)
    requires |gs| == GROUPS && BlockedOk(bm, gs)
    ensures i in bm[EB] + bm[IB] ==> bm[ER] != {}
  {
    if i in bm[EB] + bm[IB] {
      var h :| Blocks(bm, gs, h, i);
      assert h in bm[ER];
    }
  }

  lemma NothingBlocked(bm: Bitmaps, gs: seq<Grp>)
    requires |gs| == GROUPS && BlockedOk(bm, gs) && bm[ER] == {}
    ensures bm[EB] == {} && bm[IB] == {}
  {
    hide BlockedOk;
    forall i: nat
      ensures i !in bm[EB] && i !in bm[IB]
    {
      BlockedNeedsReady(bm, gs, i);
      assert i in bm[EB] + bm[IB] <==> i in bm[EB] || i in bm[IB];
    }
  }

  // ---------------------------------------------------------------- moving one group

  /** The served group has no class left. */
  lemma LeaveOk(V: nat, bm: Bitmaps, gs: seq<Grp>, g: nat, h: Grp)
    requires Loose(V, bm, gs) && g in bm[ER] && g < GROUPS && h.full == {} && Stamped(h, g)
    ensures var bm': Bitmaps := bm[ER := bm[ER] - {g}]; var gs' := gs[g := h];
            Sets(bm', gs') && LateOk(V, bm', gs') && BlockedBefore(bm', gs', g, gs[g].F) && AllStamped(gs')
  {
    hide Stamped;
    var bm': Bitmaps := bm[ER := bm[ER] - {g}];
    var gs' := gs[g := h];
    forall i | i in bm'[EB] + bm'[IB]
      ensures i < GROUPS && (Blocked(bm', gs', i) || (i < g && gs[g].F < gs'[i].F))
    {
      assert i in bm[EB] + bm[IB];
      var w :| Blocks(bm, gs, w, i);
      if w != g {
        assert Blocks(bm', gs', w, i);
      }
    }
  }

  /** The served group has a later front slot: it is put in the set that qfq_calc_state gives. */
  lemma ReplaceOk(V: nat, now: nat, bm: Bitmaps, gs: seq<Grp>, g: nat, h: Grp)
    requires Loose(V, bm, gs) && V <= now && g in bm[ER] && g < GROUPS && h.full != {} && Stamped(h, g)
    ensures var bm1: Bitmaps := bm[ER := bm[ER] - {g}]; var gs' := gs[g := h];
            && |gs'| == GROUPS && (forall j :: j in bm1[ER] ==> j < GROUPS)
            && var s := CalcState(now, bm1, gs', g);
            && s < 4
            && var bm' := bm1[s := bm1[s] + {g}];
            Sets(bm', gs') && LateOk(V, bm', gs') && BlockedBefore(bm', gs', g, gs[g].F) && AllStamped(gs')
  {
    hide Stamped, CalcState, Sets;
    var bm1: Bitmaps := bm[ER := bm[ER] - {g}];
    RangeOf(bm, gs);
    TakeReady(bm, gs, g, h);
    var gs' := gs[g := h];
    CalcStateIs(now, bm1, gs', g);
    var s := CalcState(now, bm1, gs', g);
    var bm': Bitmaps := bm1[s := bm1[s] + {g}];
    PutSets(bm1, gs', g, s);
    forall i | i in bm'[EB] + bm'[IB]
      ensures i < GROUPS && (Blocked(bm', gs', i) || (i < g && gs[g].F < gs'[i].F))
    {
      if i == g {
        var w :| Blocks(bm1, gs', w, i);
        assert Blocks(bm', gs', w, i);
      } else {
        assert i in bm[EB] + bm[IB];
        var w :| Blocks(bm, gs, w, i);
        if w != g {
          assert Blocks(bm', gs', w, i);
        }
      }
    }
  }

  /** An idle group gets its first class, or an ineligible one an earlier start time. */
  lemma ArriveOk(V: nat, bm: Bitmaps, gs: seq<Grp>, g: nat, now: nat, h: Grp)
    requires GroupsOk(V, bm, gs) && g < GROUPS && g !in bm[ER] && g !in bm[EB] && h.full != {} && Stamped(h, g)
    requires if gs[g].full == {} && bm[ER] == {} then now >= h.S else now == V
    ensures var bm1: Bitmaps := bm[IR := bm[IR] - {g}][IB := bm[IB] - {g}]; var gs' := gs[g := h];
            && (forall j :: j in bm1[ER] ==> j < GROUPS)
            && var s := CalcState(now, bm1, gs', g);
            && s < 4
            && GroupsOk(now, bm1[s := bm1[s] + {g}], gs')
  {
    hide Stamped, CalcState, Sets;
    var bm1: Bitmaps := bm[IR := bm[IR] - {g}][IB := bm[IB] - {g}];
    RangeOf(bm, gs);
    TakeLate(bm, gs, g, h);
    var gs' := gs[g := h];
    CalcStateIs(now, bm1, gs', g);
    var s := CalcState(now, bm1, gs', g);
    var bm': Bitmaps := bm1[s := bm1[s] + {g}];
    PutSets(bm1, gs', g, s);
    forall i | i in bm'[EB] + bm'[IB]
      ensures i < GROUPS && Blocked(bm', gs', i)
    {
      if i == g {
        var w :| Blocks(bm1, gs', w, i);
        assert Blocks(bm', gs', w, i);
      } else {
        assert i in bm[EB] + bm[IB];
        var w :| Blocks(bm, gs, w, i);
        assert Blocks(bm', gs', w, i);
      }
    }
  }

  /** Nothing here depends on which classes a group has. */
  lemma SameGroup(V: nat, bm: Bitmaps, gs: seq<Grp>, g: nat, h: Grp)
    requires Loose(V, bm, gs) && g < GROUPS && h.S == gs[g].S && h.F == gs[g].F && (h.full != {} <==> gs[g].full != {})
    ensures Loose(V, bm, gs[g := h])
  {
    hide SlotSize, RoundDown;
    var gs' := gs[g := h];
    forall i | i in bm[EB] + bm[IB]
      ensures i < GROUPS && Blocked(bm, gs', i)
    {
      var w :| Blocks(bm, gs, w, i);
      assert Blocks(bm, gs', w, i);
    }
    assert forall i :: Live(gs', i) <==> Live(gs, i);
    assert forall i :: 0 <= i < |gs| ==> Stamped(gs[i], i) ==> Stamped(gs'[i], i);
  }

  lemma StillStamped(gs: seq<Grp>, g: nat, h: Grp)
    requires AllStamped(gs) && g < |gs| && h.S == gs[g].S && h.full == {}
    ensures Stamped(h, g)
  {
    assert Stamped(gs[g], g);
  }

  /** A group without classes is in no set. */
  lemma InNoSet(bm: Bitmaps, gs: seq<Grp>, g: nat)
    requires Sets(bm, gs) && g < GROUPS && gs[g].full == {}
    ensures g !in bm[ER] && g !in bm[EB]
    ensures bm[IR := bm[IR] - {g}][IB := bm[IB] - {g}] == bm
  {
    assert !Live(gs, g);
    assert bm[IR] - {g} == bm[IR] && bm[IB] - {g} == bm[IB];
  }

  lemma IneligibleOnly(bm: Bitmaps, gs: seq<Grp>, g: nat)
    requires Sets(bm, gs) && (g in bm[IR] || g in bm[IB])
    ensures g !in bm[ER] && g !in bm[EB]
  {
  }

  lemma CalcSame(V: nat, bm: Bitmaps, gs: seq<Grp>, i: nat, h: Grp)
    requires |gs| == GROUPS && i < GROUPS && (forall j :: j in bm[ER] ==> j < GROUPS) && h.S == gs[i].S && h.F == gs[i].F
    ensures CalcState(V, bm, gs, i) == CalcState(V, bm, gs[i := h], i)
  {
  }
}
