/** A run of the scheduler of sys/netinet/ipfw/dn_sched_qfq.c after which qfq_update_start moves the start
  time of a class backward. It has three classes, one each in groups 0, 1 and 10, so that what a group
  looks like follows from its class, and a step is a function on a few numbers. */
module QfqRun {
  import opened Basics
  import opened PacketQueue
  import opened Bits
  import opened QfqTime
  import opened QfqWheel
  import opened QfqMarks
  import opened QfqClasses
  import opened Qfq

  const NONE := 4

  /** The group of class `k`. */
  function GroupOf(k: nat): nat
  {
    if k == 0 then 0 else if k == 1 then 1 else 10
  }

  /** The virtual time, the set of each of the three groups, and the classes. */
  datatype View = View(V: nat, code: seq<nat>, cls: seq<Class>)

  /** The groups of the set `s`. */
  ghost function Pick(code: seq<nat>, s: nat): set<nat>
    requires |code| == 3
  {
    (if code[0] == s then {0} else {}) + (if code[1] == s then {1} else {}) + (if code[2] == s then {10} else {})
  }

  ghost predicate Coded(bm: Bitmaps, code: seq<nat>)
  {
    |code| == 3 && bm[ER] == Pick(code, ER) && bm[IR] == Pick(code, IR) && bm[EB] == Pick(code, EB) && bm[IB] == Pick(code, IB)
  }

  /** Each group has one class. */
  ghost predicate Alone(cs: Classes, cls: seq<Class>)
  {
    && |cls| == 3 && cs == map[0 := cls[0], 1 := cls[1], 2 := cls[2]]
    && forall k :: 0 <= k < 3 ==> cls[k].grp == GroupOf(k)
  }

  /** A group is in a set exactly if its class is backlogged. */
  ghost predicate Marked(code: seq<nat>, cls: seq<Class>)
  {
    |code| == |cls| == 3 && forall k :: 0 <= k < 3 ==> (code[k] < NONE <==> cls[k].mq != [])
  }

  /** The state of the scheduler is the one that `t` shows. */
  ghost predicate Shows(V: nat, bm: Bitmaps, gs: seq<Grp>, cs: Classes, t: View)
  {
    QfqOk(V, bm, gs, cs) && V == t.V && Alone(cs, t.cls) && Marked(t.code, t.cls) && Coded(bm, t.code)
  }

  function StampS(cl: Class): nat { RoundDown(cl.S, SlotSize(cl.grp)) }

  function StampF(cl: Class): nat { StampS(cl) + 2 * SlotSize(cl.grp) }

  // ---------------------------------------------------------------- the sets

  /** The first ready group from the one of class `k` on, or 3. */
  function FirstReady(code: seq<nat>, k: nat): (j: nat)
    requires |code| == 3
    ensures j <= 3 && (j < 3 ==> k <= j && code[j] == ER)
    decreases 3 - k
  {
    if k >= 3 then 3 else if code[k] == ER then k else FirstReady(code, k + 1)
  }

  lemma ReadyIs(bm: Bitmaps, code: seq<nat>, k: nat)
    requires Coded(bm, code) && k < 3
    ensures forall j :: j in bm[ER] ==> j < GROUPS
    ensures var mask := MaskFrom(bm[ER], GroupOf(k)); var j := FirstReady(code, k);
            (mask == {} <==> j == 3) && (j < 3 ==> First(mask) == GroupOf(j))
    ensures var mask := MaskFrom(bm[ER], GroupOf(k) + 1); var j := FirstReady(code, k + 1);
            (mask == {} <==> j == 3) && (j < 3 ==> First(mask) == GroupOf(j))
  {
    var mask, above := MaskFrom(bm[ER], GroupOf(k)), MaskFrom(bm[ER], GroupOf(k) + 1);
    var j, i := FirstReady(code, k), FirstReady(code, k + 1);
    assert FirstReady(code, 3) == 3;
    assert forall x: nat :: x in bm[ER] ==> x == 0 || x == 1 || x == 10;
    if j < 3 {
      assert GroupOf(j) in mask;
    }
    if i < 3 {
      assert GroupOf(i) in above;
    }
  }

  function MovedCode(code: seq<nat>, m: nat, src: nat, dst: nat): (r: seq<nat>)
    requires |code| == 3
    ensures |r| == 3
  {
    [if 0 < m && code[0] == src then dst else code[0], if 1 < m && code[1] == src then dst else code[1],
     if 2 < m && code[2] == src then dst else code[2]]
  }

  /** `m` classes have groups below `n`. */
  function Below(n: nat): nat
  {
    if n == 0 then 0 else if n == 1 then 1 else if n <= 10 then 2 else 3
  }

  lemma InPick(code: seq<nat>, s: nat, x: nat)
    requires |code| == 3
    ensures x in Pick(code, s) <==> (x == 0 && code[0] == s) || (x == 1 && code[1] == s) || (x == 10 && code[2] == s)
  {
  }

  lemma MovedIs(bm: Bitmaps, code: seq<nat>, n: nat, src: nat, dst: nat)
    requires Coded(bm, code) && src < 4 && dst < 4 && src != dst
    ensures Coded(Moved(bm, n, src, dst), MovedCode(code, Below(n), src, dst))
  {
    hide Pick, Moved;
    var t, c := Moved(bm, n, src, dst), MovedCode(code, Below(n), src, dst);
    forall s | 0 <= s < 4
      ensures t[s] == Pick(c, s)
    {
      forall x: nat
        ensures x in t[s] <==> x in Pick(c, s)
      {
        InPick(c, s, x);
        InPick(code, s, x);
        InPick(code, src, x);
      }
    }
  }

  lemma PutIs(bm: Bitmaps, code: seq<nat>, k: nat, s: nat)
    requires Coded(bm, code) && k < 3 && code[k] >= NONE && s < 4
    ensures Coded(bm[s := bm[s] + {GroupOf(k)}], code[k := s])
  {
  }

  lemma TakeIs(bm: Bitmaps, code: seq<nat>, k: nat)
    requires Coded(bm, code) && k < 3 && code[k] == ER
    ensures Coded(bm[ER := bm[ER] - {GroupOf(k)}], code[k := NONE])
  {
  }

  lemma NotLate(bm: Bitmaps, code: seq<nat>, k: nat)
    requires Coded(bm, code) && k < 3 && code[k] >= NONE
    ensures bm[IR := bm[IR] - {GroupOf(k)}][IB := bm[IB] - {GroupOf(k)}] == bm
  {
    assert bm[IR] - {GroupOf(k)} == bm[IR] && bm[IB] - {GroupOf(k)} == bm[IB];
  }

  // ---------------------------------------------------------------- the groups

  /** The timestamps of groups with classes follow from these. */
  ghost predicate Follows(gs: seq<Grp>, cls: seq<Class>)
  {
    && |gs| == GROUPS && |cls| == 3
    && forall k :: 0 <= k < 3 && cls[k].mq != [] ==> gs[GroupOf(k)].S == StampS(cls[k]) && gs[GroupOf(k)].F == StampF(cls[k])
  }

  lemma GroupsFollow(V: nat, bm: Bitmaps, gs: seq<Grp>, cs: Classes, cls: seq<Class>)
    requires QfqOk(V, bm, gs, cs) && Alone(cs, cls)
    ensures Follows(gs, cls) && forall k :: 0 <= k < 3 ==> (gs[GroupOf(k)].full != {} <==> cls[k].mq != [])
  {
    hide QfqOk, SlotSize, RoundDown;
    StampedOf(V, bm, gs, cs);
    forall k | 0 <= k < 3
      ensures gs[GroupOf(k)].full != {} <==> cls[k].mq != []
      ensures cls[k].mq != [] ==> gs[GroupOf(k)].S == StampS(cls[k]) && gs[GroupOf(k)].F == StampF(cls[k])
    {
      GroupIs(V, bm, gs, cs, cls, k);
    }
  }

  /** A group with its one class: it has classes exactly if that is backlogged, and its timestamps follow. */
  lemma GroupIs(V: nat, bm: Bitmaps, gs: seq<Grp>, cs: Classes, cls: seq<Class>, k: nat)
    requires QfqOk(V, bm, gs, cs) && Alone(cs, cls) && k < 3
    ensures |gs| == GROUPS
    ensures var g := gs[GroupOf(k)];
            (g.full != {} <==> cls[k].mq != []) && (g.full != {} ==> g.S == StampS(cls[k]) && g.F == StampF(cls[k]))
  {
    hide SlotSize, RoundDown, ClassOk, Bucket, SlotDistinct, Loose, Near, Started;
    var i := GroupOf(k);
    StampedOf(V, bm, gs, cs);
    OfClasses(cs, gs, i);
    OfWheel(gs[i]);
    assert cs[k] == cls[k];
    if gs[i].full != {} {
      assert FrontOk(gs[i]);
      var c := gs[i].slots[gs[i].front][0];
      FrontBelongs(cs, gs[i], i, c);
      assert c == k;
      assert Stamped(gs[i], i);
    }
    if cls[k].mq != [] {
      assert InWheel(gs[i], k);
      var s: nat :| InSlot(gs[i], s, k);
      assert Bucket(gs[i], s) != [];
    }
  }

  // ---------------------------------------------------------------- arrivals

  /** qfq_update_start */
  function Start(t: View, k: nat): nat
    requires |t.code| == |t.cls| == 3 && k < 3
  {
    var cl := t.cls[k];
    var size := SlotSize(cl.grp);
    var j := FirstReady(t.code, k);
    if cl.F > t.V && RoundDown(cl.F, size) <= RoundDown(t.V, size) + size then cl.F
    else if j < 3 && RoundDown(cl.F, size) > StampF(t.cls[j]) then StampF(t.cls[j])
    else t.V
  }

  /** qfq_calc_state */
  function Calc(V: nat, code: seq<nat>, cls: seq<Class>, k: nat): (s: nat)
    requires |code| == |cls| == 3 && k < 3
    ensures s < 4
  {
    var late := if StampS(cls[k]) > V then 1 else 0;
    var j := FirstReady(code, k);
    if j < 3 && StampF(cls[k]) > StampF(cls[j]) then late + EB else late
  }

  lemma CalcIs(V: nat, bm: Bitmaps, code: seq<nat>, gs: seq<Grp>, cls: seq<Class>, k: nat)
    requires Coded(bm, code) && Follows(gs, cls) && k < 3 && code[k] >= NONE && cls[k].mq != []
    requires forall j :: 0 <= j < 3 && code[j] == ER ==> cls[j].mq != []
    ensures forall j :: j in bm[ER] ==> j < GROUPS
    ensures CalcState(V, bm, gs, GroupOf(k)) == Calc(V, code, cls, k)
  {
    hide SlotSize, RoundDown, StampS, StampF, Pick;
    ReadyIs(bm, code, k);
  }

  function Arrive(t: View, k: nat, m: Packet): View
    requires |t.code| == |t.cls| == 3 && k < 3
  {
    var cl := t.cls[k];
    if cl.mq != [] then t.(cls := t.cls[k := cl.(mq := cl.mq + [m])])
    else
      var S := Start(t, k);
      var cls := t.cls[k := cl.(mq := [m], S := S, F := S + m.len * cl.invW)];
      var V := if FirstReady(t.code, 0) == 3 then Max(t.V, StampS(cls[k])) else t.V;
      View(V, t.code[k := Calc(V, t.code, cls, k)], cls)
  }

  /** An idle class has room, as its group is empty, and starts at the time shown. */
  lemma StartIs(V: nat, bm: Bitmaps, gs: seq<Grp>, cs: Classes, t: View, k: nat)
    requires Shows(V, bm, gs, cs, t) && k < 3 && t.cls[k].mq == []
    ensures k in cs && cs[k] == t.cls[k] && Room(V, bm, gs, cs[k]) && StartTime(V, bm, gs, cs[k]) == Start(t, k)
  {
    hide QfqOk, SlotSize, RoundDown, StampS, StampF, Pick;
    GroupsFollow(V, bm, gs, cs, t.cls);
    ReadyIs(bm, t.code, k);
  }

  lemma ArriveIs(V: nat, bm: Bitmaps, gs: seq<Grp>, cs: Classes, t: View, k: nat, m: Packet,
                 V': nat, bm': Bitmaps, gs': seq<Grp>, cs': Classes)
    requires Shows(V, bm, gs, cs, t) && k < 3 && t.cls[k].mq == [] && QfqOk(V', bm', gs', cs')
    requires Activated(V, bm, gs, cs, k, m, V', cs') && k in cs' && Placed(V', bm, gs, GroupOf(k), cs'[k].S, bm', gs')
    ensures Shows(V', bm', gs', cs', Arrive(t, k, m))
  {
    hide QfqOk, SlotSize, RoundDown, CalcState, Calc, Pick, StartTime, Start, Idle, Coded;
    StartIs(V, bm, gs, cs, t, k);
    GroupsFollow(V, bm, gs, cs, t.cls);
    var u := Arrive(t, k, m);
    assert Alone(cs', u.cls);
    GroupsFollow(V', bm', gs', cs', u.cls);
    NotLate(bm, t.code, k);
    NoneReady(V, bm, gs, cs, t);
    CalcIs(V', bm, t.code, gs', u.cls, k);
    PutIs(bm, t.code, k, u.code[k]);
  }

  lemma NoneReady(V: nat, bm: Bitmaps, gs: seq<Grp>, cs: Classes, t: View)
    requires Shows(V, bm, gs, cs, t)
    ensures FirstReady(t.code, 0) == 3 <==> Idle(cs)
  {
    hide QfqOk, Idle, Pick;
    ReadyIffBacklogged(V, bm, gs, cs);
    ReadyIs(bm, t.code, 0);
    assert MaskFrom(bm[ER], 0) == bm[ER];
  }

  // ---------------------------------------------------------------- services

  function Freed(code: seq<nat>, n: nat, from: nat, to: nat, from': nat, to': nat): seq<nat>
    requires |code| == 3
  {
    MovedCode(MovedCode(code, Below(n), from, to), Below(n), from', to')
  }

  /** qfq_unblock_groups */
  function Unblock(code: seq<nat>, cls: seq<Class>, k: nat, oldF: nat): (r: seq<nat>)
    requires |code| == |cls| == 3 && k < 3
    ensures |r| == 3
  {
    var j := FirstReady(code, k + 1);
    if j < 3 && StampF(cls[j]) <= oldF then code else Freed(code, GroupOf(k), EB, ER, IB, IR)
  }

  lemma UnblockIs(bm: Bitmaps, code: seq<nat>, gs: seq<Grp>, cls: seq<Class>, k: nat, oldF: nat)
    requires Coded(bm, code) && Follows(gs, cls) && k < 3
    requires forall j :: 0 <= j < 3 && code[j] == ER ==> cls[j].mq != []
    ensures forall j :: j in bm[ER] ==> j < GROUPS
    ensures Coded(Unblocked(bm, gs, GroupOf(k), oldF), Unblock(code, cls, k, oldF))
  {
    hide SlotSize, RoundDown, StampS, StampF, Pick, MovedCode, Moved, Coded;
    CodedLength(bm, code);
    ReadyIs(bm, code, k);
    MovedIs(bm, code, GroupOf(k), EB, ER);
    MovedIs(Moved(bm, GroupOf(k), EB, ER), MovedCode(code, Below(GroupOf(k)), EB, ER), GroupOf(k), IB, IR);
  }

  /** The sets when class `k`, the first ready one, has been served and is `cl`. */
  function CodeAfter(now: nat, code: seq<nat>, cls: seq<Class>, k: nat, cl: Class): (r: seq<nat>)
    requires |code| == |cls| == 3 && k < 3
    ensures |r| == 3
  {
    var c := code[k := NONE];
    var cls' := cls[k := cl];
    if cl.mq == [] then Unblock(c, cls', k, StampF(cls[k]))
    else if StampS(cl) == StampS(cls[k]) then code
    else Unblock(c[k := Calc(now, c, cls', k)], cls', k, StampF(cls[k]))
  }

  lemma CodeAfterIs(now: nat, bm: Bitmaps, gs: seq<Grp>, gs': seq<Grp>, code: seq<nat>, cls: seq<Class>, k: nat, cl: Class)
    requires Coded(bm, code) && Marked(code, cls) && Follows(gs, cls) && k < 3 && code[k] == ER
    requires Follows(gs', cls[k := cl]) && gs' == gs[GroupOf(k) := gs'[GroupOf(k)]]
    requires gs'[GroupOf(k)].full != {} <==> cl.mq != []
    ensures forall j :: j in bm[ER] ==> j < GROUPS
    ensures Coded(MarksAfter(now, bm, gs, GroupOf(k), gs'[GroupOf(k)]), CodeAfter(now, code, cls, k, cl))
  {
    hide SlotSize, RoundDown, StampS, StampF, Pick, CalcState, Calc, Unblock, Unblocked, Coded;
    var g, h := GroupOf(k), gs'[GroupOf(k)];
    var c, cls' := code[k := NONE], cls[k := cl];
    var bm1: Bitmaps := bm[ER := bm[ER] - {g}];
    ReadyIs(bm, code, k);
    CodedLength(bm, code);
    TakeIs(bm, code, k);
    if cl.mq == [] {
      UnblockIs(bm1, c, gs', cls', k, StampF(cls[k]));
    } else {
      CalcIs(now, bm1, c, gs', cls', k);
      var s := Calc(now, c, cls', k);
      PutIs(bm1, c, k, s);
      UnblockIs(bm1[s := bm1[s] + {g}], c[k := s], gs', cls', k, StampF(cls[k]));
    }
  }

  lemma CodedLength(bm: Bitmaps, code: seq<nat>)
    requires Coded(bm, code)
    ensures |code| == 3
  {
  }

  /** The first ineligible group, or 3. */
  function FirstLate(code: seq<nat>, k: nat): (j: nat)
    requires |code| == 3
    ensures j <= 3 && (j < 3 ==> k <= j && (code[j] == IR || code[j] == IB))
    decreases 3 - k
  {
    if k >= 3 then 3 else if code[k] == IR || code[k] == IB then k else FirstLate(code, k + 1)
  }

  lemma LateIs(bm: Bitmaps, code: seq<nat>)
    requires Coded(bm, code)
    ensures forall j :: j in bm[IR] + bm[IB] ==> j < GROUPS
    ensures var j := FirstLate(code, 0); (bm[IR] + bm[IB] == {} <==> j == 3) && (j < 3 ==> First(bm[IR] + bm[IB]) == GroupOf(j))
    ensures bm[ER] == {} <==> FirstReady(code, 0) == 3
  {
    hide Pick;
    var late, j := bm[IR] + bm[IB], FirstLate(code, 0);
    ReadyIs(bm, code, 0);
    assert MaskFrom(bm[ER], 0) == bm[ER];
    forall x: nat
      ensures x in late <==> (x == 0 && LateCode(code[0])) || (x == 1 && LateCode(code[1])) || (x == 10 && LateCode(code[2]))
    {
      InPick(code, IR, x);
      InPick(code, IB, x);
    }
    FirstLateIs(code);
    if j < 3 {
      assert GroupOf(j) in late;
    }
  }

  predicate LateCode(c: nat) { c == IR || c == IB }

  lemma FirstLateIs(code: seq<nat>)
    requires |code| == 3
    ensures FirstLate(code, 0) == if LateCode(code[0]) then 0 else if LateCode(code[1]) then 1 else if LateCode(code[2]) then 2 else 3
  {
    assert FirstLate(code, 3) == 3;
    assert FirstLate(code, 2) == if LateCode(code[2]) then 2 else 3;
  }

  /** The virtual time after qfq_update_eligible. */
  function JumpTo(now: nat, code: seq<nat>, cls: seq<Class>): nat
    requires |code| == |cls| == 3
  {
    var j := FirstLate(code, 0);
    if j < 3 && FirstReady(code, 0) == 3 then Max(now, StampS(cls[j])) else now
  }

  /** qfq_make_eligible */
  function Eligible(v: nat, oldV: nat, code: seq<nat>): (r: seq<nat>)
    requires |code| == 3
    ensures |r| == 3
  {
    if v / MIN_SLOT == oldV / MIN_SLOT then code
    else Freed(code, HighDiff(v / MIN_SLOT, oldV / MIN_SLOT) + 1, IR, ER, IB, EB)
  }

  lemma EligibleIs(v: nat, oldV: nat, bm: Bitmaps, code: seq<nat>)
    requires Coded(bm, code)
    ensures Coded(MadeEligible(bm, v, oldV), Eligible(v, oldV, code))
  {
    hide Pick, MovedCode, Moved, Coded, HighDiff;
    CodedLength(bm, code);
    if v / MIN_SLOT != oldV / MIN_SLOT {
      var n := HighDiff(v / MIN_SLOT, oldV / MIN_SLOT) + 1;
      MovedIs(bm, code, n, IR, ER);
      MovedIs(Moved(bm, n, IR, ER), MovedCode(code, Below(n), IR, ER), n, IB, EB);
    }
  }

  /** qfq_dequeue when some group is ready */
  function Serve(t: View): View
    requires |t.code| == |t.cls| == 3 && FirstReady(t.code, 0) < 3 && t.cls[FirstReady(t.code, 0)].mq != []
  {
    var k := FirstReady(t.code, 0);
    var cl := NextClass(t.cls[k]);
    var cls := t.cls[k := cl];
    var now := t.V + t.cls[k].mq[0].len * IWSUM;
    var code := CodeAfter(now, t.code, t.cls, k, cl);
    var v := JumpTo(now, code, cls);
    View(v, if FirstLate(code, 0) == 3 then code else Eligible(v, t.V, code), cls)
  }

  lemma MovedMarked(code: seq<nat>, cls: seq<Class>, m: nat, src: nat, dst: nat)
    requires Marked(code, cls) && src < 4 && dst < 4
    ensures |MovedCode(code, m, src, dst)| == 3 && Marked(MovedCode(code, m, src, dst), cls)
  {
  }

  lemma FreedMarked(code: seq<nat>, cls: seq<Class>, n: nat, from: nat, to: nat, from': nat, to': nat)
    requires Marked(code, cls) && from < 4 && to < 4 && from' < 4 && to' < 4
    ensures Marked(Freed(code, n, from, to, from', to'), cls)
  {
    hide MovedCode, Marked;
    MarkedLength(code, cls);
    MovedMarked(code, cls, Below(n), from, to);
    MovedMarked(MovedCode(code, Below(n), from, to), cls, Below(n), from', to');
  }

  lemma MarkedLength(code: seq<nat>, cls: seq<Class>)
    requires Marked(code, cls)
    ensures |code| == |cls| == 3
  {
  }

  lemma CodeAfterMarked(now: nat, code: seq<nat>, cls: seq<Class>, k: nat, cl: Class)
    requires Marked(code, cls) && k < 3 && code[k] == ER
    ensures Marked(CodeAfter(now, code, cls, k, cl), cls[k := cl])
  {
    hide StampS, StampF, Freed, Calc, FirstReady;
    var c, cls' := code[k := NONE], cls[k := cl];
    if cl.mq == [] {
      FreedMarked(c, cls', GroupOf(k), EB, ER, IB, IR);
    } else {
      FreedMarked(c[k := Calc(now, c, cls', k)], cls', GroupOf(k), EB, ER, IB, IR);
    }
  }

  lemma EligibleMarked(v: nat, oldV: nat, code: seq<nat>, cls: seq<Class>)
    requires Marked(code, cls)
    ensures Marked(Eligible(v, oldV, code), cls)
  {
    hide Freed, Marked, HighDiff;
    MarkedLength(code, cls);
    if v / MIN_SLOT != oldV / MIN_SLOT {
      FreedMarked(code, cls, HighDiff(v / MIN_SLOT, oldV / MIN_SLOT) + 1, IR, ER, IB, EB);
    }
  }

  /** The class that is served is the one of the first ready group. */
  lemma PickedIs(V: nat, bm: Bitmaps, gs: seq<Grp>, cs: Classes, t: View, who: nat)
    requires Shows(V, bm, gs, cs, t) && Picked(V, bm, gs, cs, who)
    ensures who < 3 && who == FirstReady(t.code, 0) && cs[who] == t.cls[who] && cs[who].grp == GroupOf(who) && t.cls[who].mq != []
  {
    hide QfqOk, Front;
    ReadyIs(bm, t.code, 0);
    assert MaskFrom(bm[ER], 0) == bm[ER];
  }

  lemma NextAlone(cs: Classes, cls: seq<Class>, k: nat)
    requires Alone(cs, cls) && k < 3 && cls[k].mq != []
    ensures Alone(cs[k := NextClass(cls[k])], cls[k := NextClass(cls[k])])
  {
  }

  lemma ServeIs(V: nat, bm: Bitmaps, gs: seq<Grp>, cs: Classes, t: View, who: nat, len: nat,
                V': nat, bm': Bitmaps, gs': seq<Grp>, cs': Classes)
    requires Shows(V, bm, gs, cs, t) && QfqOk(V', bm', gs', cs') && Picked(V, bm, gs, cs, who)
    requires len == cs[who].mq[0].len && cs' == cs[who := NextClass(cs[who])]
    requires MarksMoved(V, bm, gs, cs[who].grp, len, V', bm', gs')
    ensures who == FirstReady(t.code, 0) && Shows(V', bm', gs', cs', Serve(t))
  {
    hide QfqOk, SlotSize, RoundDown, StampS, StampF, Pick, MarksAfter, CodeAfter, Eligible, MadeEligible, Coded, Front;
    CodedLength(bm, t.code);
    GroupsFollow(V, bm, gs, cs, t.cls);
    PickedIs(V, bm, gs, cs, t, who);
    var u := Serve(t);
    NextAlone(cs, t.cls, who);
    GroupsFollow(V', bm', gs', cs', u.cls);
    var now := V + len * IWSUM;
    CodeAfterIs(now, bm, gs, gs', t.code, t.cls, who, u.cls[who]);
    var mid, code := MarksAfter(now, bm, gs, GroupOf(who), gs'[GroupOf(who)]), CodeAfter(now, t.code, t.cls, who, u.cls[who]);
    LateIs(mid, code);
    EligibleIs(V', V, mid, code);
    CodeAfterMarked(now, t.code, t.cls, who, u.cls[who]);
    EligibleMarked(V', V, code, u.cls);
  }

  // ---------------------------------------------------------------- the run

  function Pkts(lens: seq<nat>): (q: seq<Packet>)
    ensures |q| == |lens|
  {
    seq(|lens|, i requires 0 <= i < |lens| => Packet(0, lens[i]))
  }

  /** The weights of the classes, and their inverses. */
  function WeightOf(k: nat): nat
  {
    if k == 0 then 65536 else if k == 1 then 32768 else 512
  }

  function Inv(k: nat): nat
  {
    if k == 0 then 16384 else if k == 1 then 32768 else 2097152
  }

  function LongestOf(k: nat): nat
  {
    if k < 2 then 256 else 2000
  }

  function Cl(k: nat, lens: seq<nat>, S: nat, F: nat): Class
  {
    Class(Pkts(lens), S, F, GroupOf(k), Inv(k), LongestOf(k))
  }

  function Shown(V: nat, code: seq<nat>, a: Class, b: Class, c: Class): View
  {
    View(V, code, [a, b, c])
  }

  lemma NextIs(k: nat, lens: seq<nat>, S: nat, F: nat)
    requires lens != []
    ensures NextClass(Cl(k, lens, S, F)) == Cl(k, lens[1..], F, if |lens| == 1 then F else F + lens[1] * Inv(k))
  {
    assert Pkts(lens)[1..] == Pkts(lens[1..]);
  }

  lemma Numbers()
    ensures SlotSize(0) == 4194304 && SlotSize(1) == 8388608 && SlotSize(10) == 4294967296
  {
    assert Pow2(5) == 32;
    assert Pow2(10) == 1024;
  }

  /** The states of the run. */
  function At0(): View { Shown(0, [NONE, NONE, NONE], Cl(0, [], 0, 0), Cl(1, [], 0, 0), Cl(2, [], 0, 0)) }

  function At1(): View { Shown(0, [ER, NONE, NONE], Cl(0, [256], 0, 4194304), Cl(1, [], 0, 0), Cl(2, [], 0, 0)) }

  function At2(): View { Shown(0, [ER, NONE, NONE], Cl(0, [256, 256, 256, 250, 256, 232], 0, 4194304), Cl(1, [], 0, 0), Cl(2, [], 0, 0)) }

  function At3(): View { Shown(4194304, [ER, NONE, NONE], Cl(0, [256, 256, 250, 256, 232], 4194304, 8388608), Cl(1, [], 0, 0), Cl(2, [], 0, 0)) }

  function At4(): View { Shown(4194304, [ER, NONE, ER], Cl(0, [256, 256, 250, 256, 232], 4194304, 8388608), Cl(1, [], 0, 0), Cl(2, [2000], 4194304, 4198498304)) }

  function At5(): View { Shown(4194304, [ER, ER, ER], Cl(0, [256, 256, 250, 256, 232], 4194304, 8388608), Cl(1, [184], 4194304, 10223616), Cl(2, [2000], 4194304, 4198498304)) }

  function At6(): View { Shown(4194304, [ER, ER, ER], Cl(0, [256, 256, 250, 256, 232], 4194304, 8388608), Cl(1, [184, 178, 256, 56], 4194304, 10223616), Cl(2, [2000], 4194304, 4198498304)) }

  function At7(): View { Shown(6291456, [IR, ER, ER], Cl(0, [256, 250, 256, 232], 8388608, 12582912), Cl(1, [184, 178, 256, 56], 4194304, 10223616), Cl(2, [2000], 4194304, 4198498304)) }

  function At8(): View { Shown(7798784, [IR, IR, ER], Cl(0, [256, 250, 256, 232], 8388608, 12582912), Cl(1, [178, 256, 56], 10223616, 16056320), Cl(2, [2000], 4194304, 4198498304)) }

  function At9(): View { Shown(24182784, [ER, ER, NONE], Cl(0, [256, 250, 256, 232], 8388608, 12582912), Cl(1, [178, 256, 56], 10223616, 16056320), Cl(2, [], 4198498304, 4198498304)) }

  function At10(): View { Shown(26279936, [ER, ER, NONE], Cl(0, [250, 256, 232], 12582912, 16678912), Cl(1, [178, 256, 56], 10223616, 16056320), Cl(2, [], 4198498304, 4198498304)) }

  function At11(): View { Shown(28327936, [ER, ER, NONE], Cl(0, [256, 232], 16678912, 20873216), Cl(1, [178, 256, 56], 10223616, 16056320), Cl(2, [], 4198498304, 4198498304)) }

  function At12(): View { Shown(30425088, [ER, ER, NONE], Cl(0, [232], 20873216, 24674304), Cl(1, [178, 256, 56], 10223616, 16056320), Cl(2, [], 4198498304, 4198498304)) }

  function At13(): View { Shown(32325632, [NONE, ER, NONE], Cl(0, [], 24674304, 24674304), Cl(1, [178, 256, 56], 10223616, 16056320), Cl(2, [], 4198498304, 4198498304)) }

  function At14(): View { Shown(33783808, [NONE, ER, NONE], Cl(0, [], 24674304, 24674304), Cl(1, [256, 56], 16056320, 24444928), Cl(2, [], 4198498304, 4198498304)) }

  function At15(): View { Shown(33783808, [EB, ER, NONE], Cl(0, [256], 33783808, 37978112), Cl(1, [256, 56], 16056320, 24444928), Cl(2, [], 4198498304, 4198498304)) }

  function At16(): View { Shown(35880960, [ER, ER, NONE], Cl(0, [256], 33783808, 37978112), Cl(1, [56], 24444928, 26279936), Cl(2, [], 4198498304, 4198498304)) }

  function At17(): View { Shown(37978112, [NONE, ER, NONE], Cl(0, [], 37978112, 37978112), Cl(1, [56], 24444928, 26279936), Cl(2, [], 4198498304, 4198498304)) }

  function At18(): View { Shown(37978112, [EB, ER, NONE], Cl(0, [115], 33554432, 35438592), Cl(1, [56], 24444928, 26279936), Cl(2, [], 4198498304, 4198498304)) }

  lemma Step1()
    ensures Arrive(At0(), 0, Packet(0, 256)) == At1()
  {
    Numbers();
    assert Pkts([256]) == [Packet(0, 256)];
    var u := Arrive(At0(), 0, Packet(0, 256));
    assert u.cls == At1().cls;
    assert u.V == 0 && u.code == [ER, NONE, NONE];
  }

  lemma Step3()
    ensures Serve(At2()) == At3()
  {
    Numbers();
    NextIs(0, [256, 256, 256, 250, 256, 232], 0, 4194304);
    assert [256, 256, 256, 250, 256, 232][1..] == [256, 256, 250, 256, 232];
    var u := Serve(At2());
    assert u.cls == At3().cls;
    assert u.V == 4194304 && u.code == [ER, NONE, NONE];
  }

  lemma Step4()
    ensures Arrive(At3(), 2, Packet(0, 2000)) == At4()
  {
    Numbers();
    assert Pkts([2000]) == [Packet(0, 2000)];
    var u := Arrive(At3(), 2, Packet(0, 2000));
    assert u.cls == At4().cls;
    assert u.V == 4194304 && u.code == [ER, NONE, ER];
  }

  lemma Step5()
    ensures Arrive(At4(), 1, Packet(0, 184)) == At5()
  {
    Numbers();
    assert Pkts([184]) == [Packet(0, 184)];
    var u := Arrive(At4(), 1, Packet(0, 184));
    assert u.cls == At5().cls;
    assert u.V == 4194304 && u.code == [ER, ER, ER];
  }

  lemma Step7()
    ensures Serve(At6()) == At7()
  {
    Numbers();
    NextIs(0, [256, 256, 250, 256, 232], 4194304, 8388608);
    assert [256, 256, 250, 256, 232][1..] == [256, 250, 256, 232];
    var u := Serve(At6());
    assert u.cls == At7().cls;
    assert u.V == 6291456 && u.code == [IR, ER, ER];
  }

  lemma Step8()
    ensures Serve(At7()) == At8()
  {
    Numbers();
    NextIs(1, [184, 178, 256, 56], 4194304, 10223616);
    assert [184, 178, 256, 56][1..] == [178, 256, 56];
    var u := Serve(At7());
    assert u.cls == At8().cls;
    assert u.V == 7798784 && u.code == [IR, IR, ER];
  }

  lemma FiveOne()
    ensures HighDiff(5, 1) == 2
  {
    assert Xor(5, 1) == 4;
  }

  lemma Step9()
    ensures Serve(At8()) == At9()
  {
    hide HighDiff;
    FiveOne();
    Numbers();
    NextIs(2, [2000], 4194304, 4198498304);
    assert [2000][1..] == [];
    var u := Serve(At8());
    assert u.cls == At9().cls;
    assert u.V == 24182784 && u.code == [ER, ER, NONE];
  }

  lemma Step10()
    ensures Serve(At9()) == At10()
  {
    Numbers();
    NextIs(0, [256, 250, 256, 232], 8388608, 12582912);
    assert [256, 250, 256, 232][1..] == [250, 256, 232];
    var u := Serve(At9());
    assert u.cls == At10().cls;
    assert u.V == 26279936 && u.code == [ER, ER, NONE];
  }

  lemma Step11()
    ensures Serve(At10()) == At11()
  {
    Numbers();
    NextIs(0, [250, 256, 232], 12582912, 16678912);
    assert [250, 256, 232][1..] == [256, 232];
    var u := Serve(At10());
    assert u.cls == At11().cls;
    assert u.V == 28327936 && u.code == [ER, ER, NONE];
  }

  lemma Step12()
    ensures Serve(At11()) == At12()
  {
    Numbers();
    NextIs(0, [256, 232], 16678912, 20873216);
    assert [256, 232][1..] == [232];
    var u := Serve(At11());
    assert u.cls == At12().cls;
    assert u.V == 30425088 && u.code == [ER, ER, NONE];
  }

  lemma Step13()
    ensures Serve(At12()) == At13()
  {
    Numbers();
    NextIs(0, [232], 20873216, 24674304);
    assert [232][1..] == [];
    var u := Serve(At12());
    assert u.cls == At13().cls;
    assert u.V == 32325632 && u.code == [NONE, ER, NONE];
  }

  lemma Step14()
    ensures Serve(At13()) == At14()
  {
    Numbers();
    NextIs(1, [178, 256, 56], 10223616, 16056320);
    assert [178, 256, 56][1..] == [256, 56];
    var u := Serve(At13());
    assert u.cls == At14().cls;
    assert u.V == 33783808 && u.code == [NONE, ER, NONE];
  }

  lemma Step15()
    ensures Arrive(At14(), 0, Packet(0, 256)) == At15()
  {
    Numbers();
    assert Pkts([256]) == [Packet(0, 256)];
    var u := Arrive(At14(), 0, Packet(0, 256));
    assert u.cls == At15().cls;
    assert u.V == 33783808 && u.code == [EB, ER, NONE];
  }

  lemma Step16()
    ensures Serve(At15()) == At16()
  {
    Numbers();
    NextIs(1, [256, 56], 16056320, 24444928);
    assert [256, 56][1..] == [56];
    var u := Serve(At15());
    assert u.cls == At16().cls;
    assert u.V == 35880960 && u.code == [ER, ER, NONE];
  }

  lemma Step17()
    ensures Serve(At16()) == At17()
  {
    Numbers();
    NextIs(0, [256], 33783808, 37978112);
    assert [256][1..] == [];
    var u := Serve(At16());
    assert u.cls == At17().cls;
    assert u.V == 37978112 && u.code == [NONE, ER, NONE];
  }

  lemma Step18()
    ensures Arrive(At17(), 0, Packet(0, 115)) == At18()
  {
    Numbers();
    assert Pkts([115]) == [Packet(0, 115)];
    var u := Arrive(At17(), 0, Packet(0, 115));
    assert u.cls == At18().cls;
    assert u.V == 37978112 && u.code == [EB, ER, NONE];
  }

  /** The scheduler is in state `t`. */
  ghost predicate On(s: Scheduler, t: View)
    reads s, s.groups
  {
    s.Valid() && Shows(s.V, s.bitmaps, s.Gs(), s.classes, t)
  }

  lemma AppendIs(V: nat, bm: Bitmaps, gs: seq<Grp>, cs: Classes, t: View, k: nat, m: Packet, cs': Classes)
    requires Shows(V, bm, gs, cs, t) && k < 3 && k in cs && cs[k].mq != [] && QfqOk(V, bm, gs, cs')
    requires cs' == cs[k := Arrived(cs[k], m, 0)]
    ensures Shows(V, bm, gs, cs', Arrive(t, k, m))
  {
    hide QfqOk, Coded;
  }

  lemma ClassOf(s: Scheduler, t: View, k: nat)
    requires On(s, t) && k < 3
    ensures |t.cls| == |t.code| == 3 && k in s.classes && s.classes[k] == t.cls[k] && s.classes[k].grp == GroupOf(k)
  {
    hide QfqOk;
  }

  method Add(s: Scheduler, k: nat, len: nat, ghost t: View)
    requires On(s, t) && k < 3 && len <= LongestOf(k) && |t.cls| == |t.code| == 3 && t.cls[k].lmax == LongestOf(k)
    modifies s, s.groups
    ensures On(s, Arrive(t, k, Packet(0, len)))
  {
    hide QfqOk, Activated, Placed, Arrive, Room, StartTime;
    ClassOf(s, t, k);
    ghost var V, bm, gs, cs := s.V, s.bitmaps, s.Gs(), s.classes;
    if cs[k].mq == [] {
      StartIs(V, bm, gs, cs, t, k);
    }
    var dropped := s.Enqueue(k, Packet(0, len), false);
    if cs[k].mq == [] {
      ArrivedIn(cs, k, Packet(0, len), V, bm, gs, s.V, s.classes);
      ArriveIs(V, bm, gs, cs, t, k, Packet(0, len), s.V, s.bitmaps, s.Gs(), s.classes);
    } else {
      AppendIs(V, bm, gs, cs, t, k, Packet(0, len), s.classes);
    }
  }

  lemma ArrivedIn(cs: Classes, k: nat, m: Packet, V: nat, bm: Bitmaps, gs: seq<Grp>, V': nat, cs': Classes)
    requires Activated(V, bm, gs, cs, k, m, V', cs')
    ensures k in cs && k in cs' && cs'[k].grp == cs[k].grp
  {
    hide StartTime, Idle;
  }

  method Take(s: Scheduler, ghost t: View)
    requires On(s, t) && |t.code| == |t.cls| == 3 && FirstReady(t.code, 0) < 3 && t.cls[FirstReady(t.code, 0)].mq != []
    modifies s, s.groups
    ensures On(s, Serve(t))
  {
    hide QfqOk, MarksMoved, Serve, Picked, Advanced;
    ghost var V, bm, gs, cs := s.V, s.bitmaps, s.Gs(), s.classes;
    ClassOf(s, t, FirstReady(t.code, 0));
    var m, who := s.Dequeue();
    assert m != None;
    PickedIs(V, bm, gs, cs, t, who);
    ServeIs(V, bm, gs, cs, t, who, m.value.len, s.V, s.bitmaps, s.Gs(), s.classes);
  }

  /** More packets for a class that is backlogged with those of `first`. */
  method Burst(s: Scheduler, k: nat, more: seq<nat>, ghost first: seq<nat>, ghost t: View, ghost u: View)
    requires On(s, t) && k < 3 && |t.cls| == |t.code| == 3 && first != []
    requires t.cls[k] == Cl(k, first, t.cls[k].S, t.cls[k].F) && forall i :: 0 <= i < |more| ==> more[i] <= LongestOf(k)
    requires u == t.(cls := t.cls[k := Cl(k, first + more, t.cls[k].S, t.cls[k].F)])
    modifies s, s.groups
    ensures On(s, u)
  {
    hide On, Arrive;
    ghost var now := t;
    assert first + more[..0] == first;
    assert t.cls[k := t.cls[k]] == t.cls;
    for i := 0 to |more|
      invariant On(s, now) && now == t.(cls := t.cls[k := Cl(k, first + more[..i], t.cls[k].S, t.cls[k].F)])
    {
      MoreIs(now, k, first + more[..i], more[i]);
      assert first + more[..i] + [more[i]] == first + more[..i + 1];
      Add(s, k, more[i], now);
      now := Arrive(now, k, Packet(0, more[i]));
    }
    assert more[..|more|] == more;
  }

  lemma MoreIs(t: View, k: nat, lens: seq<nat>, x: nat)
    requires |t.cls| == |t.code| == 3 && k < 3 && lens != [] && t.cls[k] == Cl(k, lens, t.cls[k].S, t.cls[k].F)
    ensures Arrive(t, k, Packet(0, x)) == t.(cls := t.cls[k := Cl(k, lens + [x], t.cls[k].S, t.cls[k].F)])
  {
    assert Pkts(lens + [x]) == Pkts(lens) + [Packet(0, x)];
  }

  lemma GroupsOf()
    ensures CalcIndex(InvOf(65536), 256) == 0 && InvOf(65536) == 16384 && EffectiveWeight(65536) == 65536
    ensures CalcIndex(InvOf(32768), 256) == 1 && InvOf(32768) == 32768 && EffectiveWeight(32768) == 32768
    ensures CalcIndex(InvOf(512), 2000) == 10 && InvOf(512) == 2097152 && EffectiveWeight(512) == 512
  {
    assert Pow2(5) == 32;
    assert Pow2(9) == 512;
    assert Fls(1000) == 9;
  }

  method Enrol(s: Scheduler, k: nat)
    requires s.Valid() && k < 3 && k !in s.classes && s.wsum + WeightOf(k) <= MAX_WSUM
    modifies s
    ensures s.Valid() && s.classes == old(s.classes)[k := Cl(k, [], 0, 0)] && s.wsum == old(s.wsum) + WeightOf(k)
    ensures s.V == old(s.V) && s.bitmaps == old(s.bitmaps)
  {
    hide QfqOk, CalcIndex, EffectiveWeight, InvOf, Weighted, Fifo;
    GroupsOf();
    var ok := s.NewQueue(k, WeightOf(k), LongestOf(k));
    assert Pkts([]) == [];
  }

  lemma BeginIs(bm: Bitmaps, gs: seq<Grp>, cs: Classes)
    requires QfqOk(0, bm, gs, cs) && bm == [{}, {}, {}, {}]
    requires cs == map[0 := Cl(0, [], 0, 0), 1 := Cl(1, [], 0, 0), 2 := Cl(2, [], 0, 0)]
    ensures Shows(0, bm, gs, cs, At0())
  {
    hide QfqOk, Pkts;
    assert Pkts([]) == [];
  }

  /** A scheduler with the three classes. */
  method Begin() returns (s: Scheduler)
    ensures fresh(s) && fresh(s.groups) && On(s, At0())
  {
    hide QfqOk, Weighted, Fifo, Cl, At0, Shows;
    s := new Scheduler();
    Enrol(s, 0);
    Enrol(s, 1);
    Enrol(s, 2);
    BeginIs(s.bitmaps, s.Gs(), s.classes);
  }

  /** Six packets of the first class, and one service. */
  method Part1(s: Scheduler)
    requires On(s, At0())
    modifies s, s.groups
    ensures On(s, At3())
  {
    hide On, Arrive, Serve, Pkts;
    Step1();
    Add(s, 0, 256, At0());
    assert [256] + [256, 256, 250, 256, 232] == [256, 256, 256, 250, 256, 232];
    assert At2().cls == At1().cls[0 := At2().cls[0]];
    Burst(s, 0, [256, 256, 250, 256, 232], [256], At1(), At2());
    Step3();
    Take(s, At2());
  }

  /** A packet of the third class and four of the second one. */
  method Part2(s: Scheduler)
    requires On(s, At3())
    modifies s, s.groups
    ensures On(s, At6())
  {
    hide On, Arrive, Serve, Pkts;
    Step4();
    Add(s, 2, 2000, At3());
    Step5();
    Add(s, 1, 184, At4());
    assert [184] + [178, 256, 56] == [184, 178, 256, 56];
    assert At6().cls == At5().cls[1 := At6().cls[1]];
    Burst(s, 1, [178, 256, 56], [184], At5(), At6());
  }

  /** One packet of each class: the first two groups become ineligible, and then ready together. */
  method Part3(s: Scheduler)
    requires On(s, At6())
    modifies s, s.groups
    ensures On(s, At9())
  {
    hide On, Arrive, Serve, Pkts;
    Step7();
    Take(s, At6());
    Step8();
    Take(s, At7());
    Step9();
    Take(s, At8());
  }

  /** The rest of the first class, and a packet of the second one. */
  method Part4(s: Scheduler)
    requires On(s, At9())
    modifies s, s.groups
    ensures On(s, At14())
  {
    hide On, Arrive, Serve, Pkts;
    Step10();
    Take(s, At9());
    Step11();
    Take(s, At10());
    Step12();
    Take(s, At11());
    Step13();
    Take(s, At12());
    Step14();
    Take(s, At13());
  }

  /** The first class comes back and is blocked by the second one, and released when that is served. */
  method Part5(s: Scheduler)
    requires On(s, At14())
    modifies s, s.groups
    ensures On(s, At16())
  {
    hide On, Arrive, Serve, Pkts;
    Step15();
    Add(s, 0, 256, At14());
    Step16();
    Take(s, At15());
  }

  /** The run up to the release of the first class. */
  method Released() returns (s: Scheduler)
    ensures fresh(s) && fresh(s.groups) && On(s, At16())
  {
    hide On;
    s := Begin();
    Part1(s);
    Part2(s);
    Part3(s);
    Part4(s);
    Part5(s);
  }

  /** A run after which a ready group finishes later than one above it. */
  method OutOfOrder() returns (s: Scheduler)
    ensures fresh(s) && s.Valid() && |s.groups| == GROUPS
    ensures 0 in s.bitmaps[ER] && 1 in s.bitmaps[ER] && s.groups[0].F > s.groups[1].F
  {
    hide QfqOk, Pkts, Weighted, Fifo;
    s := Released();
    GroupsFollow(s.V, s.bitmaps, s.Gs(), s.classes, At16().cls);
    Numbers();
    assert s.Gs()[0].F == StampF(At16().cls[0]) && s.Gs()[1].F == StampF(At16().cls[1]);
  }

  /** A run at the end of which a class that has been idle as `cl` becomes backlogged again, and starts
      before it has finished last. */
  method StartsBefore() returns (s: Scheduler, ghost cl: Class)
    ensures fresh(s) && s.Valid() && 0 in s.classes
    ensures cl.mq == [] && s.classes[0].mq != [] && s.classes[0].S < cl.F
  {
    hide On, Arrive, Serve;
    s := Released();
    Step17();
    Take(s, At16());
    ClassOf(s, At17(), 0);
    cl := s.classes[0];
    Step18();
    Add(s, 0, 115, At17());
    ClassOf(s, At18(), 0);
    IsValid(s, At18());
  }

  lemma IsValid(s: Scheduler, t: View)
    requires On(s, t)
    ensures s.Valid()
  {
  }
}
