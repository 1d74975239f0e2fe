/** Link emulation in sys/netinet/ipfw/ip_dn_io.c: a scheduler instance is served at the rate of its
  link by credit, its packets go through a delay line, and a heap of timed events drives both. */
module Link {
  import opened Basics
  import opened PacketQueue
  import H = DnHeap

  /** A packet of a delay line with its output time. */
  datatype Delayed = Delayed(pkt: Packet, out: int)

  /** What a scheduler answers when it is asked for a packet. */
  datatype Reply = Nothing | Pkt(p: Packet) | Wait(ticks: nat)

  /** A scheduler instance with its link and delay line. `backlog` is what its scheduler holds. */
  datatype Inst = Inst(bw: nat, delay: nat, burst: nat, credit: int, schedTime: int, idleTime: int, active: bool,
                       backlog: seq<Packet>, dline: seq<Delayed>)

  /** The events: an instance and its delay line. */
  function SchKey(n: nat): nat { 2 * n }

  function LineKey(n: nat): nat { 2 * n + 1 }

  ghost function KeyIn(heap: map<nat, int>, o: nat): Option<int>
  {
    if o in heap then Some(heap[o]) else None
  }

  ghost predicate Sorted(dline: seq<Delayed>)
  {
    forall j, k :: 0 <= j < k < |dline| ==> dline[j].out <= dline[k].out
  }

  ghost predicate Bounded(dline: seq<Delayed>, t: int)
  {
    forall k :: 0 <= k < |dline| ==> dline[k].out <= t
  }

  /** A delay line is an event exactly when it is not empty, at the output time of its head. */
  ghost predicate LineOk(dline: seq<Delayed>, line: Option<int>)
  {
    Sorted(dline) && line == if dline == [] then None else Some(dline[0].out)
  }

  /** An instance is an event exactly when it is active, as it is when packets wait; one in debt wakes up
      as soon as its link has made up for the debt. Packets leave no later than a link delay after that.
      An instance has been idle since its last service, if it has been served. */
  ghost predicate SchedOk(i: Inst, sched: Option<int>, now: int)
  {
    && (sched != None <==> i.active)
    && (i.credit < 0 ==> i.bw > 0 && sched != None && (sched.value - i.schedTime) * i.bw >= -i.credit > (sched.value - i.schedTime - 1) * i.bw)
    && i.schedTime <= now && (!i.active ==> i.backlog == [] && (i.idleTime == i.schedTime || i.schedTime == 0))
    && Bounded(i.dline, (if sched == None then now else sched.value) + i.delay)
  }

  ghost predicate InstOk(i: Inst, n: nat, heap: map<nat, int>, now: int)
  {
    LineOk(i.dline, KeyIn(heap, LineKey(n))) && SchedOk(i, KeyIn(heap, SchKey(n)), now)
  }

  ghost predicate AllOk(insts: seq<Inst>, heap: map<nat, int>, now: int)
  {
    && (forall n :: 0 <= n < |insts| ==> InstOk(insts[n], n, heap, now))
    && (forall o :: o in heap ==> o < 2 * |insts|)
  }

  /** All instances but `n` are in order. */
  ghost predicate OthersOk(insts: seq<Inst>, n: nat, heap: map<nat, int>, now: int)
  {
    && (forall k :: 0 <= k < |insts| && k != n ==> InstOk(insts[k], k, heap, now))
    && (forall o :: o in heap ==> o < 2 * |insts|)
  }

  /** The heaps agree but for the two events of instance `n`. */
  ghost predicate SameBut(heap: map<nat, int>, heap': map<nat, int>, n: nat)
  {
    forall o :: o != SchKey(n) && o != LineKey(n) ==> KeyIn(heap', o) == KeyIn(heap, o)
  }

  lemma OthersKept(insts: seq<Inst>, insts': seq<Inst>, n: nat, heap: map<nat, int>, heap': map<nat, int>, now: int)
    requires OthersOk(insts, n, heap, now) && n < |insts| && SameBut(heap, heap', n)
    requires |insts'| == |insts| && insts' == insts[n := insts'[n]]
    ensures OthersOk(insts', n, heap', now)
  {
    hide SchedOk, LineOk;
    forall k | 0 <= k < |insts| && k != n
      ensures InstOk(insts'[k], k, heap', now)
    {
      assert InstOk(insts[k], k, heap, now);
      assert KeyIn(heap', SchKey(k)) == KeyIn(heap, SchKey(k)) && KeyIn(heap', LineKey(k)) == KeyIn(heap, LineKey(k));
    }
    forall o | o in heap'
      ensures o < 2 * |insts|
    {
      assert KeyIn(heap', o) != None;
      assert o != SchKey(n) && o != LineKey(n) ==> KeyIn(heap', o) == KeyIn(heap, o);
    }
  }

  // ---------------------------------------------------------------- the delay line

  /** The packets that are due at the head of a delay line. */
  ghost function Due(dline: seq<Delayed>, now: int): (d: nat)
    ensures d <= |dline|
  {
    if dline == [] || dline[0].out > now then 0 else 1 + Due(dline[1..], now)
  }

  ghost function Packets(dline: seq<Delayed>): seq<Packet>
  {
    seq(|dline|, k requires 0 <= k < |dline| => dline[k].pkt)
  }

  lemma PacketsNext(dline: seq<Delayed>, k: nat)
    requires k < |dline|
    ensures Packets(dline[..k + 1]) == Packets(dline[..k]) + [dline[k].pkt]
    ensures dline[k..][1..] == dline[k + 1..] && dline[..k + 1] == dline[..k] + [dline[k]]
  {
  }

  /** The packets a scheduler holds and those that have left it for the delay line. */
  ghost function Held(backlog: seq<Packet>, trace: seq<Delayed>): multiset<Packet>
  {
    multiset(backlog) + multiset(Packets(trace))
  }

  /** One packet goes from the scheduler to the delay line. */
  lemma HeldNext(backlog: seq<Packet>, backlog': seq<Packet>, trace: seq<Delayed>, d: Delayed)
    requires multiset(backlog) == multiset(backlog') + multiset{d.pkt}
    ensures Held(backlog', trace + [d]) == Held(backlog, trace)
  {
    assert Packets(trace + [d]) == Packets(trace) + [d.pkt];
  }

  lemma HeldSame(backlog: seq<Packet>, trace: seq<Delayed>, trace': seq<Delayed>)
    requires |trace| == |trace'| && forall k :: 0 <= k < |trace| ==> trace[k].pkt == trace'[k].pkt
    ensures Held(backlog, trace') == Held(backlog, trace)
  {
    assert Packets(trace) == Packets(trace');
  }

  lemma {:induction false} DueIs(dline: seq<Delayed>, now: int)
    ensures Due(dline, now) <= |dline|
    ensures forall k :: 0 <= k < Due(dline, now) ==> dline[k].out <= now
    ensures Due(dline, now) < |dline| ==> dline[Due(dline, now)].out > now
    ensures Sorted(dline) ==> forall k :: Due(dline, now) <= k < |dline| ==> dline[k].out > now
  {
    if dline != [] && dline[0].out <= now {
      DueIs(dline[1..], now);
      var d := Due(dline[1..], now);
      assert Sorted(dline) ==> Sorted(dline[1..]);
      forall k | 0 <= k < Due(dline, now)
        ensures dline[k].out <= now
      {
        assert k > 0 ==> dline[k] == dline[1..][k - 1];
      }
      forall k | Due(dline, now) <= k < |dline| && Sorted(dline)
        ensures dline[k].out > now
      {
        assert dline[k] == dline[1..][k - 1];
      }
      assert d < |dline[1..]| ==> dline[1..][d] == dline[d + 1];
    }
  }

  // ---------------------------------------------------------------- credit

  /** The bits of a packet, in the unit of the credit. */
  function Scaled(hz: nat, len: nat): nat
  {
    hz * (len * 8)
  }

  /** The bits of the packets of `trace`, in that unit. */
  ghost function Bits(hz: nat, trace: seq<Delayed>): nat
  {
    if trace == [] then 0 else
      var k := |trace| - 1;
      Bits(hz, trace[..k]) + Scaled(hz, trace[k].pkt.len)
  }

  /** hz times the bits. */
  lemma {:induction false} BitsAre(hz: nat, trace: seq<Delayed>)
    ensures Bits(hz, trace) == hz * (8 * Bytes(Packets(trace)))
  {
    if trace != [] {
      var k := |trace| - 1;
      var a, b := Bytes(Packets(trace[..k])), trace[k].pkt.len;
      BitsAre(hz, trace[..k]);
      assert Packets(trace) == Packets(trace[..k]) + [trace[k].pkt];
      BytesMore(Packets(trace[..k]), trace[k].pkt);
      assert hz * (8 * (a + b)) == hz * (8 * a) + hz * (b * 8);
    }
  }

  lemma BitsNext(hz: nat, trace: seq<Delayed>, d: Delayed)
    ensures Bits(hz, trace + [d]) == Bits(hz, trace) + Scaled(hz, d.pkt.len)
  {
    hide Scaled;
    assert (trace + [d])[..|trace|] == trace;
  }

  lemma {:induction false} BitsAppend(hz: nat, a: seq<Delayed>, b: seq<Delayed>)
    ensures Bits(hz, a + b) == Bits(hz, a) + Bits(hz, b)
  {
    hide Scaled;
    if b == [] {
      assert a + b == a;
    } else {
      var k := |b| - 1;
      assert a + b == a + b[..k] + [b[k]];
      BitsNext(hz, a + b[..k], b[k]);
      BitsAppend(hz, a, b[..k]);
    }
  }

  lemma {:induction false} BitsSame(hz: nat, trace: seq<Delayed>, trace': seq<Delayed>)
    requires |trace| == |trace'| && forall k :: 0 <= k < |trace| ==> trace[k].pkt == trace'[k].pkt
    ensures Bits(hz, trace') == Bits(hz, trace)
  {
    hide Scaled;
    if trace != [] {
      BitsSame(hz, trace[..|trace| - 1], trace'[..|trace| - 1]);
    }
  }

  /** div64(bw - 1 - credit, bw) */
  function Delay(credit: int, bw: nat): int
    requires bw > 0
  {
    (bw - 1 - credit) / bw
  }

  /** The wake-up delay is the least number of ticks in which the link makes up for the debt. */
  lemma DelayIsCeiling(credit: int, bw: nat, t: int)
    requires bw > 0 && credit < 0
    ensures Delay(credit, bw) >= 1
    ensures credit + t * bw >= 0 <==> t >= Delay(credit, bw)
  {
    var d := Delay(credit, bw);
    var x := bw - 1 - credit;
    assert x == d * bw + x % bw;
    if t >= d {
      MulMono(d, t, bw);
    } else {
      MulMono(t, d - 1, bw);
      assert (d - 1) * bw == d * bw - bw;
    }
    if d < 1 {
      MulMono(d, 0, bw);
    }
  }

  // ---------------------------------------------------------------- serving an instance

  /** `grown` is `dline` with `done` packets more, which leave at `t`. */
  ghost predicate Grown(dline: seq<Delayed>, grown: seq<Delayed>, done: nat, t: int)
  {
    && |grown| == |dline| + done && dline <= grown
    && forall k :: |dline| <= k < |grown| ==> grown[k].out == t
  }

  lemma GrownNone(dline: seq<Delayed>, t: int)
    ensures Grown(dline, dline, 0, t)
  {
  }

  lemma GrownNext(dline: seq<Delayed>, grown: seq<Delayed>, done: nat, t: int, p: Packet)
    requires Grown(dline, grown, done, t)
    ensures Grown(dline, grown + [Delayed(p, t)], done + 1, t)
  {
  }

  /** Which events an operation on instance `n` may add: future ones. */
  ghost predicate Later(heap: map<nat, int>, heap': map<nat, int>, n: nat, now: int)
  {
    && SameBut(heap, heap', n)
    && forall o :: o in heap' && !(o in heap && heap[o] == heap'[o]) ==> heap'[o] > now
  }

  /** A delay line after its due packets have left. */
  lemma Released(dline: seq<Delayed>, now: int, heap: map<nat, int>, n: nat)
    requires Sorted(dline) && LineKey(n) !in heap
    ensures var rest := dline[Due(dline, now)..];
            var heap' := if rest == [] then heap else heap[LineKey(n) := rest[0].out];
            LineOk(rest, KeyIn(heap', LineKey(n))) && Later(heap, heap', n, now) && KeyIn(heap', SchKey(n)) == KeyIn(heap, SchKey(n))
    ensures forall t :: Bounded(dline, t) ==> Bounded(dline[Due(dline, now)..], t)
  {
    DueIs(dline, now);
  }

  /** The last packet leaves `t` ticks later. */
  ghost function PutOff(dline: seq<Delayed>, t: int): seq<Delayed>
    requires |dline| > 0
  {
    dline[|dline| - 1 := dline[|dline| - 1].(out := dline[|dline| - 1].out + t)]
  }

  /** Putting off a new packet changes none of the others. */
  lemma PutOffGrown(left: seq<Delayed>, dline: seq<Delayed>, grown: seq<Delayed>, done: nat, t: int, d: int, hz: nat)
    requires Grown(dline, grown, done, t) && done > 0
    ensures |grown| > 0 && left + dline <= left + PutOff(grown, d) && |PutOff(grown, d)| == |dline| + done
    ensures |left + PutOff(grown, d)| == |left| + |grown| && (left + PutOff(grown, d))[|left| + |grown| - 1].pkt == grown[|grown| - 1].pkt
    ensures forall b :: Held(b, left + PutOff(grown, d)) == Held(b, left + grown)
    ensures Bits(hz, left + PutOff(grown, d)) == Bits(hz, left + grown)
  {
    BitsSame(hz, left + grown, left + PutOff(grown, d));
    forall b
      ensures Held(b, left + PutOff(grown, d)) == Held(b, left + grown)
    {
      HeldSame(b, left + grown, left + PutOff(grown, d));
    }
  }

  /** When the packets that have come into a delay line leave it: a link delay after `now`, but the last one
      of a service that leaves a debt a link delay after the event `sched` at which its link has made up for that. */
  ghost predicate Timed(trace: seq<Delayed>, trace': seq<Delayed>, now: int, delay: int, credit: int, sched: Option<int>)
  {
    && trace <= trace'
    && forall k :: |trace| <= k < |trace'| ==>
         trace'[k].out == delay + if credit < 0 && k == |trace'| - 1 && sched != None then sched.value else now
  }

  lemma TimedGrown(left: seq<Delayed>, dline: seq<Delayed>, grown: seq<Delayed>, done: nat, now: int, delay: int, credit: int, sched: Option<int>)
    requires Grown(dline, grown, done, now + delay) && credit >= 0
    ensures Timed(left + dline, left + grown, now, delay, credit, sched)
  {
    var a, b := left + dline, left + grown;
    forall k | |a| <= k < |b|
      ensures b[k].out == now + delay
    {
      assert b[k] == grown[k - |left|];
    }
  }

  lemma TimedPutOff(left: seq<Delayed>, dline: seq<Delayed>, grown: seq<Delayed>, done: nat, now: int, delay: int, credit: int, t: int)
    requires Grown(dline, grown, done, now + delay) && done > 0 && credit < 0
    ensures |grown| > 0 && Timed(left + dline, left + PutOff(grown, t), now, delay, credit, Some(now + t))
  {
    var a, b := left + dline, left + PutOff(grown, t);
    forall k | |a| <= k < |b|
      ensures b[k].out == delay + if k == |b| - 1 then now + t else now
    {
      assert b[k] == PutOff(grown, t)[k - |left|];
    }
  }

  lemma TimedNone(trace: seq<Delayed>, now: int, delay: int, credit: int, sched: Option<int>)
    ensures Timed(trace, trace, now, delay, credit, sched)
  {
  }

  lemma KeySet(heap: map<nat, int>, o: nat, t: int, p: nat)
    ensures KeyIn(heap[o := t], o) == Some(t)
    ensures p != o ==> KeyIn(heap[o := t], p) == KeyIn(heap, p)
  {
  }

  /** An instance that may be served: it is no event, and its link has made up for its debt. */
  ghost predicate Ready(i: Inst, n: nat, heap: map<nat, int>, now: int)
  {
    && SchKey(n) !in heap && LineOk(i.dline, KeyIn(heap, LineKey(n))) && Bounded(i.dline, now + i.delay)
    && i.schedTime <= now && (i.bw > 0 ==> i.credit + (now - i.schedTime) * i.bw >= 0)
  }

  lemma GrownOk(dline: seq<Delayed>, grown: seq<Delayed>, done: nat, t: int)
    requires Sorted(dline) && Bounded(dline, t) && Grown(dline, grown, done, t)
    ensures Sorted(grown) && Bounded(grown, t) && (dline != [] ==> grown[0] == dline[0])
  {
    forall k | 0 <= k < |dline|
      ensures grown[k] == dline[k]
    {
    }
  }

  lemma PutOffOk(dline: seq<Delayed>, t: int, d: int)
    requires Sorted(dline) && Bounded(dline, t) && |dline| > 0 && d >= 0
    ensures Sorted(PutOff(dline, d)) && Bounded(PutOff(dline, d), t + d) && (|dline| > 1 ==> PutOff(dline, d)[0] == dline[0])
  {
  }

  /** The instance and the heap before the delay line may release packets. */
  ghost predicate Served(i: Inst, n: nat, heap: map<nat, int>, now: int, transmit: bool)
  {
    && SchedOk(i, KeyIn(heap, SchKey(n)), now)
    && if transmit then Sorted(i.dline) && LineKey(n) !in heap else LineOk(i.dline, KeyIn(heap, LineKey(n)))
  }

  /** The delay line `was` has `done` new packets at its end. */
  ghost predicate Filled(was: seq<Delayed>, i: Inst, done: nat, now: int)
  {
    Sorted(was) && Bounded(was, now + i.delay) && Grown(was, i.dline, done, now + i.delay)
  }

  lemma ServedIdle(was: seq<Delayed>, i: Inst, n: nat, heap: map<nat, int>, done: nat, now: int)
    requires Filled(was, i, done, now) && SchKey(n) !in heap && LineOk(was, KeyIn(heap, LineKey(n)))
    requires i.credit >= 0 && !i.active && i.backlog == [] && i.schedTime == i.idleTime <= now
    ensures Served(i, n, heap, now, was == [] && done > 0)
  {
    GrownOk(was, i.dline, done, now + i.delay);
  }

  lemma ServedLater(was: seq<Delayed>, i: Inst, n: nat, heap: map<nat, int>, done: nat, now: int, wait: nat)
    requires Filled(was, i, done, now) && SchKey(n) !in heap && LineOk(was, KeyIn(heap, LineKey(n)))
    requires i.credit >= 0 && i.active && i.schedTime <= now
    ensures Served(i, n, heap[SchKey(n) := now + wait], now, was == [] && done > 0)
  {
    GrownOk(was, i.dline, done, now + i.delay);
  }

  lemma ServedDebt(was: seq<Delayed>, i: Inst, n: nat, heap: map<nat, int>, done: nat, now: int)
    requires Filled(was, i, done, now) && SchKey(n) !in heap && LineOk(was, KeyIn(heap, LineKey(n)))
    requires i.credit < 0 && i.bw > 0 && i.schedTime == now && done > 0
    ensures |i.dline| > 0
    ensures var t := Delay(i.credit, i.bw);
            Served(i.(active := true, dline := PutOff(i.dline, t)), n, heap[SchKey(n) := now + t], now, was == [] && done > 0)
    ensures Delay(i.credit, i.bw) > 0
  {
    hide Delay;
    GrownOk(was, i.dline, done, now + i.delay);
    DelayIsCeiling(i.credit, i.bw, Delay(i.credit, i.bw));
    DelayIsCeiling(i.credit, i.bw, Delay(i.credit, i.bw) - 1);
    PutOffOk(i.dline, now + i.delay, Delay(i.credit, i.bw));
  }

  lemma ServedDone(i: Inst, n: nat, heap: map<nat, int>, now: int)
    requires Served(i, n, heap, now, true)
    ensures var rest := i.dline[Due(i.dline, now)..];
            InstOk(i.(dline := rest), n, if rest == [] then heap else heap[LineKey(n) := rest[0].out], now)
  {
    hide Due;
    Released(i.dline, now, heap, n);
  }

  class SchInst {
    const id: nat
    const bw: nat
    const delay: nat
    const burst: nat
    var credit: int
    var schedTime: int
    var idleTime: int
    var active: bool
    var backlog: seq<Packet>
    var dline: seq<Delayed>
    /** What has left the delay line. */
    ghost var left: seq<Delayed>

    ghost function View(): Inst
      reads this
    {
      Inst(bw, delay, burst, credit, schedTime, idleTime, active, backlog, dline)
    }

    /** All packets that have come into the delay line, in order. */
    ghost function Trace(): seq<Delayed>
      reads this
    {
      left + dline
    }

    /** si_new with si_reset_credit: the time of the last service is left at 0. */
    constructor (id: nat, bw: nat, delay: nat, burst: nat, now: int, fast: bool)
      ensures this.id == id && View() == Fresh(bw, delay, burst, now, fast) && left == []
    {
      this.id, this.bw, this.delay, this.burst := id, bw, delay, burst;
      credit, schedTime, idleTime := burst + if fast then bw else 0, 0, now;
      active, backlog, dline, left := false, [], [], [];
    }

    /** The scheduler's dequeue: any work-conserving order, and perhaps a request to be asked later. */
    method Dequeue() returns (r: Reply)
      modifies `backlog
      ensures r == Nothing ==> backlog == old(backlog) == []
      ensures r.Wait? ==> backlog == old(backlog) && r.ticks > 0
      ensures r.Pkt? ==> multiset(old(backlog)) == multiset(backlog) + multiset{r.p} && |backlog| == |old(backlog)| - 1
    {
      if * {
        var t: nat :| t > 0;
        return Wait(t);
      }
      if backlog == [] {
        return Nothing;
      }
      var k :| 0 <= k < |backlog|;
      r := Pkt(backlog[k]);
      assert backlog == backlog[..k] + [backlog[k]] + backlog[k + 1..];
      backlog := backlog[..k] + backlog[k + 1..];
    }

    method Wake()
      modifies `active
      ensures active
    {
      active := true;
    }

    /** The loop of serve_sched: packets go to the delay line as long as there is credit. */
    method ServeLoop(hz: nat, now: int) returns (wait: nat, done: nat, ghost last: Packet)
      modifies `credit, `backlog, `dline
      ensures Grown(old(dline), dline, done, now + delay)
      ensures if bw > 0 then credit + Bits(hz, Trace()) == old(credit + Bits(hz, Trace())) else credit == old(credit)
      ensures wait > 0 ==> credit >= 0
      ensures wait == 0 && credit >= 0 ==> backlog == []
      ensures credit < 0 && old(credit) >= 0 ==> done > 0 && |dline| > 0 && dline[|dline| - 1].pkt == last && credit + Scaled(hz, last.len) >= 0
      ensures old(credit) < 0 ==> done == 0
      ensures Held(backlog, Trace()) == old(Held(backlog, Trace()))
    {
      hide Held, Bits, Scaled, Grown;
      GrownNone(dline, now + delay);
      wait, done, last := 0, 0, Packet(0, 0);
      while credit >= 0
        invariant Grown(old(dline), dline, done, now + delay)
        invariant if bw > 0 then credit + Bits(hz, Trace()) == old(credit + Bits(hz, Trace())) else credit == old(credit)
        invariant credit < 0 && old(credit) >= 0 ==> done > 0 && |dline| > 0 && dline[|dline| - 1].pkt == last && credit + Scaled(hz, last.len) >= 0
        invariant old(credit) < 0 ==> done == 0
        invariant credit <= old(credit)
        invariant Held(backlog, Trace()) == old(Held(backlog, Trace()))
        decreases |backlog|, credit >= 0
      {
        ghost var b, tr := backlog, Trace();
        var r := Dequeue();
        match r {
          case Nothing =>
            break;
          case Wait(t) =>
            wait := t;
            break;
          case Pkt(p) =>
            GrownNext(old(dline), dline, done, now + delay, p);
            var lenScaled := if bw == 0 then 0 else Scaled(hz, p.len);
            credit := credit - lenScaled;
            BitsNext(hz, tr, Delayed(p, now + delay));
            HeldNext(b, backlog, tr, Delayed(p, now + delay));
            dline := dline + [Delayed(p, now + delay)];
            assert Trace() == tr + [Delayed(p, now + delay)];
            done := done + 1;
            last := p;
        }
      }
    }

    /** The loop of transmit_event: the packets due now leave the delay line. */
    method ReleaseDue(now: int) returns (q: seq<Packet>)
      modifies `dline, `left
      ensures var d := Due(old(dline), now);
              left == old(left) + old(dline)[..d] && dline == old(dline)[d..] && q == Packets(old(dline)[..d])
    {
      DueIs(dline, now);
      q := [];
      ghost var n := 0;
      while dline != [] && dline[0].out <= now
        invariant n + Due(dline, now) == Due(old(dline), now) <= |old(dline)|
        invariant dline == old(dline)[n..] && left == old(left) + old(dline)[..n] && q == Packets(old(dline)[..n])
      {
        PacketsNext(old(dline), n);
        q := q + [dline[0].pkt];
        left := left + [dline[0]];
        dline := dline[1..];
        n := n + 1;
      }
    }
  }

  /** What service at `now` makes of the credit: it grows at the rate of the link and is spent on the
      bits served, and a debt is at most the last packet. An instance that is not active again is idle since. */
  ghost predicate Charged(i: Inst, trace: seq<Delayed>, i': Inst, trace': seq<Delayed>, hz: nat, now: int)
  {
    && i'.bw == i.bw && i'.delay == i.delay && i'.burst == i.burst && i'.schedTime == now && trace <= trace'
    && i'.idleTime == (if i'.active then i.idleTime else now)
    && (i.bw > 0 ==> i'.credit + Bits(hz, trace') == i.credit + Bits(hz, trace) + (now - i.schedTime) * i.bw)
    && (i'.credit < 0 ==> |trace'| > |trace| && i'.credit + Scaled(hz, trace'[|trace'| - 1].pkt.len) >= 0)
  }

  /** The packets `q` have left, all due. */
  ghost predicate Left(left: seq<Delayed>, left': seq<Delayed>, q: seq<Packet>, now: int)
  {
    left <= left' && q == Packets(left'[|left|..]) && forall k :: |left| <= k < |left'| ==> left'[k].out <= now
  }

  lemma LeftSlices(left: seq<Delayed>, dline: seq<Delayed>, d: nat)
    requires d <= |dline|
    ensures left <= left + dline[..d] && (left + dline[..d])[|left|..] == dline[..d]
    ensures left + dline == left + dline[..d] + dline[d..]
    ensures forall k :: |left| <= k < |left| + d ==> (left + dline[..d])[k] == dline[k - |left|]
  {
    assert dline == dline[..d] + dline[d..];
  }

  lemma LeftDue(left: seq<Delayed>, dline: seq<Delayed>, now: int)
    ensures var d := Due(dline, now); Left(left, left + dline[..d], Packets(dline[..d]), now)
    ensures var d := Due(dline, now); left + dline == left + dline[..d] + dline[d..]
  {
    hide Due, Packets;
    DueIs(dline, now);
    LeftSlices(left, dline, Due(dline, now));
  }

  lemma LeftNone(left: seq<Delayed>, now: int)
    ensures Left(left, left, [], now)
  {
  }

  /** Releasing packets changes no account. */
  lemma ChargedLine(i: Inst, trace: seq<Delayed>, i': Inst, trace': seq<Delayed>, hz: nat, now: int,
                    dline: seq<Delayed>)
    requires Charged(i, trace, i', trace', hz, now)
    ensures Charged(i, trace, i'.(dline := dline), trace', hz, now)
  {
  }

  /** The release of packets after a service. */
  lemma ServedReleased(i: Inst, left: seq<Delayed>, n: nat, heap: map<nat, int>, mid: map<nat, int>, now: int)
    requires Served(i, n, mid, now, true) && Later(heap, mid, n, now)
    ensures Sorted(i.dline) && LineKey(n) !in mid
    ensures var d := Due(i.dline, now);
            var rest := i.dline[d..];
            var heap' := if rest == [] then mid else mid[LineKey(n) := rest[0].out];
            && InstOk(i.(dline := rest), n, heap', now) && Later(heap, heap', n, now)
            && Left(left, left + i.dline[..d], Packets(i.dline[..d]), now)
            && left + i.dline[..d] + rest == left + i.dline
  {
    hide Due, Sorted, InstOk, Later, Left, Served, Packets;
    ServedSorted(i, n, mid, now);
    ServedDone(i, n, mid, now);
    LaterLine(mid, n, now, i.dline);
    LeftDue(left, i.dline, now);
    var rest := i.dline[Due(i.dline, now)..];
    LaterTrans(heap, mid, if rest == [] then mid else mid[LineKey(n) := rest[0].out], n, now);
  }

  lemma LaterSched(heap: map<nat, int>, n: nat, now: int, t: int)
    requires t > now
    ensures Later(heap, heap, n, now) && Later(heap, heap[SchKey(n) := t], n, now)
  {
  }

  lemma LaterLine(heap: map<nat, int>, n: nat, now: int, dline: seq<Delayed>)
    requires Sorted(dline) && LineKey(n) !in heap
    ensures var rest := dline[Due(dline, now)..];
            Later(heap, if rest == [] then heap else heap[LineKey(n) := rest[0].out], n, now)
  {
    Released(dline, now, heap, n);
  }

  lemma LaterTrans(a: map<nat, int>, b: map<nat, int>, c: map<nat, int>, n: nat, now: int)
    requires Later(a, b, n, now) && Later(b, c, n, now)
    ensures Later(a, c, n, now)
  {
  }

  lemma GrownTrace(left: seq<Delayed>, dline: seq<Delayed>, grown: seq<Delayed>, done: nat, t: int)
    requires Grown(dline, grown, done, t)
    ensures left + dline <= left + grown && |grown| == |dline| + done
  {
  }

  lemma ServedSorted(i: Inst, n: nat, heap: map<nat, int>, now: int)
    requires Served(i, n, heap, now, true)
    ensures Sorted(i.dline) && LineKey(n) !in heap
  {
  }

  lemma ServedStays(i: Inst, n: nat, heap: map<nat, int>, now: int)
    requires Served(i, n, heap, now, false)
    ensures InstOk(i, n, heap, now)
  {
  }

  lemma OfReady(i: Inst, n: nat, heap: map<nat, int>, now: int)
    requires Ready(i, n, heap, now)
    ensures SchKey(n) !in heap && LineOk(i.dline, KeyIn(heap, LineKey(n))) && i.schedTime <= now
    ensures Sorted(i.dline) && Bounded(i.dline, now + i.delay)
    ensures i.bw > 0 ==> i.credit + (now - i.schedTime) * i.bw >= 0
  {
  }

  lemma FilledBy(was: seq<Delayed>, i: Inst, done: nat, now: int)
    requires Sorted(was) && Bounded(was, now + i.delay) && Grown(was, i.dline, done, now + i.delay)
    ensures Filled(was, i, done, now)
  {
  }

  // ---------------------------------------------------------------- what serve_sched returns

  /** What a service releases: it looks at the delay line only if the line was idle and got packets. */
  ghost function Gone(was: seq<Delayed>, dline: seq<Delayed>, done: nat, now: int): seq<Packet>
  {
    if was == [] && done > 0 then Packets(dline[..Due(dline, now)]) else []
  }

  /** The result of serve_sched for a caller without a queue of its own: NULL when the scheduler has
      asked to be called later, whatever has been released. */
  ghost function Result(wait: nat, gone: seq<Packet>): seq<Packet>
  {
    if wait > 0 then [] else gone
  }

  /** When released packets are lost: packets went into an idle delay line without a delay, and the
      scheduler then asked to be called later. */
  ghost predicate Lost(idle: bool, delay: nat, wait: nat, done: nat)
  {
    idle && delay == 0 && wait > 0 && done > 0
  }

  lemma LostIff(was: seq<Delayed>, dline: seq<Delayed>, done: nat, now: int, delay: nat, wait: nat)
    requires wait > 0 ==> Grown(was, dline, done, now + delay)
    ensures Result(wait, Gone(was, dline, done, now)) == Gone(was, dline, done, now) <==> !Lost(was == [], delay, wait, done)
  {
  }

  /** An instance on which a packet is lost: the scheduler hands it out and then asks for one more tick. */
  lemma LostPacket(p: Packet, now: nat, heap: map<nat, int>)
    requires heap == map[]
    ensures var i := Inst(0, 0, 0, 0, now, now, false, [p], []);
            var j := i.(active := true, backlog := [], dline := [Delayed(p, now)]);
            && Ready(i, 0, heap, now) && Filled(i.dline, j, 1, now) && Served(j, 0, heap[SchKey(0) := now + 1], now, true)
            && Gone(i.dline, j.dline, 1, now) == [p] && Result(1, [p]) == []
  {
    assert Due([Delayed(p, now)], now) == 1;
    assert [Delayed(p, now)][..1] == [Delayed(p, now)];
  }

  lemma CancelLeft<T>(a: multiset<T>, b: multiset<T>, c: multiset<T>)
    requires a + b == c + a
    ensures b == c
  {
    assert a + b - a == b && c + a - a == c;
  }

  /** A packet given to an idle scheduler is the only one that its service can release at once. */
  lemma OnlyThis(backlog: seq<Packet>, left: seq<Delayed>, left': seq<Delayed>, dline: seq<Delayed>, m: Packet)
    requires left <= left' && Held(backlog, left' + dline) == Held([m], left)
    ensures var gone := Packets(left'[|left|..]); gone == [] || gone == [m]
  {
    var gone := left'[|left|..];
    assert left' + dline == left + (gone + dline);
    PacketsAppend(left, gone + dline);
    PacketsAppend(gone, dline);
    var rest := multiset(backlog) + multiset(Packets(dline));
    assert Packets(left' + dline) == Packets(left) + (Packets(gone) + Packets(dline));
    assert Held(backlog, left' + dline) == multiset(Packets(left)) + (multiset(Packets(gone)) + rest);
    CancelLeft(multiset(Packets(left)), multiset(Packets(gone)) + rest, multiset([m]));
    assert |multiset(Packets(gone))| <= |multiset(Packets(gone)) + rest|;
    if gone != [] {
      assert Packets(gone)[0] in multiset(Packets(gone));
      assert Packets(gone)[0] in multiset([m]);
    }
  }

  // ---------------------------------------------------------------- events

  /** What has happened on a link so far: what left its delay line, all that came into it, hz times the
      bits served, the balance of its credit, which only an allowance changes, and all packets it was
      ever given. */
  datatype Log = Log(left: seq<Delayed>, trace: seq<Delayed>, account: int, held: multiset<Packet>)

  /** What any number of services and releases up to `now` do. */
  ghost predicate Proceeds(i: Inst, a: Log, b: Log, now: int)
  {
    && a.left <= b.left && a.trace <= b.trace && (i.bw > 0 ==> b.account == a.account) && b.held == a.held
    && forall k :: |a.left| <= k < |b.left| ==> b.left[k].out <= now
  }

  ghost predicate AllProceed(insts: seq<Inst>, a: seq<Log>, b: seq<Log>, now: int)
  {
    |insts| == |a| == |b| && forall n :: 0 <= n < |a| ==> Proceeds(insts[n], a[n], b[n], now)
  }

  /** The debt of an instance is at most the packet it has served last. */
  ghost predicate DebtOk(i: Inst, trace: seq<Delayed>, hz: nat)
  {
    i.credit < 0 ==> |trace| > 0 && i.credit + Scaled(hz, trace[|trace| - 1].pkt.len) >= 0
  }

  /** The rate of a link: the bits that an instance serves between two services without an allowance in
      between are at most what its link carries in that time, its credit, and one packet; after a first
      service that leaves it in debt they are fewer than what the link carries and one packet. */
  lemma RateBound(i: Inst, a: Log, j: Inst, b: Log, hz: nat, maxLen: nat)
    requires i.bw > 0 && j.bw == i.bw && b.account == a.account && a.trace <= b.trace
    requires a.account == Bits(hz, a.trace) + i.credit - i.schedTime * i.bw && b.account == Bits(hz, b.trace) + j.credit - j.schedTime * j.bw
    requires DebtOk(j, b.trace, hz) && forall k :: 0 <= k < |b.trace| ==> b.trace[k].pkt.len <= maxLen
    ensures var served := Bits(hz, b.trace[|a.trace|..]);
            && served <= i.bw * (j.schedTime - i.schedTime) + i.credit + Scaled(hz, maxLen)
            && served >= i.bw * (j.schedTime - i.schedTime) + i.credit - j.credit
            && (i.credit < 0 ==> served < i.bw * (j.schedTime - i.schedTime) + Scaled(hz, maxLen))
  {
    hide Bits, Scaled;
    BitsAppend(hz, a.trace, b.trace[|a.trace|..]);
    assert b.trace == a.trace + b.trace[|a.trace|..];
    if j.credit < 0 {
      ScaledMono(hz, b.trace[|b.trace| - 1].pkt.len, maxLen);
    }
    Elapsed(i.bw, i.schedTime, j.schedTime);
  }

  /** An instance at one moment of a run. */
  datatype Moment = Moment(i: Inst, log: Log)
  {
    ghost predicate Ok(hz: nat)
    {
      log.account == Bits(hz, log.trace) + i.credit - i.schedTime * i.bw && DebtOk(i, log.trace, hz)
    }
  }

  /** Nothing between the two moments was an allowance: the event loop may have run, and packets may
      have come while the instance was active. */
  ghost predicate Continued(x: Moment, y: Moment)
  {
    y.i.bw == x.i.bw && y.i.delay == x.i.delay && x.log.trace <= y.log.trace && (x.i.bw > 0 ==> y.log.account == x.log.account)
  }

  lemma TaskContinues(i: Inst, a: Log, j: Inst, b: Log, now: int)
    requires Proceeds(i, a, b, now) && j.bw == i.bw && j.delay == i.delay
    ensures Continued(Moment(i, a), Moment(j, b))
  {
  }

  lemma JoinContinues(x: Moment, y: Moment, m: Packet, hz: nat)
    requires x.Ok(hz) && y.Ok(hz) && Joined(x, y, m)
    ensures Continued(x, y)
  {
    hide Bits, DebtOk;
  }

  lemma {:induction false} RunContinues(run: seq<Moment>)
    requires |run| > 0 && forall k :: 0 < k < |run| ==> Continued(run[k - 1], run[k])
    ensures Continued(run[0], run[|run| - 1])
  {
    if |run| > 1 {
      var n := |run| - 1;
      var front := run[..n];
      assert forall k :: 0 < k < n ==> Continued(front[k - 1], front[k]);
      RunContinues(front);
      assert Continued(run[n - 1], run[n]);
    }
  }

  /** The rate bound over a run without an allowance. */
  lemma RateOverRun(run: seq<Moment>, hz: nat, maxLen: nat)
    requires Stretch(run, hz) && run[0].i.bw > 0
    requires forall d :: d in run[|run| - 1].log.trace ==> d.pkt.len <= maxLen
    ensures run[0].log.trace <= run[|run| - 1].log.trace
    ensures var x, y := run[0], run[|run| - 1];
            var served, ticks := Bits(hz, y.log.trace[|x.log.trace|..]), y.i.schedTime - x.i.schedTime;
            && served <= x.i.bw * ticks + x.i.credit + Scaled(hz, maxLen)
            && (x.i.credit < 0 ==> served < x.i.bw * ticks + Scaled(hz, maxLen))
  {
    hide Bits, Scaled, DebtOk;
    RunContinues(run);
    var x, y := run[0], run[|run| - 1];
    RateBound(x.i, x.log, y.i, y.log, hz, maxLen);
  }

  /** What has left a delay line by `now`. */
  ghost predicate Leaves(left: seq<Delayed>, left': seq<Delayed>, now: int)
  {
    left <= left' && forall k :: |left| <= k < |left'| ==> left'[k].out <= now
  }

  /** An instance in debt is an event no sooner than its link has made up for that. */
  ghost predicate Owed(i: Inst, sched: Option<int>)
  {
    i.credit < 0 ==> sched != None && (sched.value - i.schedTime) * i.bw >= -i.credit
  }

  /** A step at `now`, after which the instance is an event at `sched`, gives new packets their time. */
  ghost predicate OnTime(x: Moment, y: Moment, now: int, sched: Option<int>)
  {
    && Timed(x.log.trace, y.log.trace, now, y.i.delay, y.i.credit, sched) && (x.log.trace != y.log.trace ==> y.i.schedTime == now)
    && y.i.delay == x.i.delay && Owed(y.i, sched) && Leaves(x.log.left, y.log.left, now)
  }

  /** Up to each packet since moment `x`, the bits are no more than the credit then and what the link has
      carried a link delay before the packet leaves. */
  ghost predicate Paced(x: Moment, trace: seq<Delayed>, hz: nat)
  {
    x.log.trace <= trace && (x.i.bw > 0 ==> forall k :: |x.log.trace| <= k < |trace| ==> PacedAt(x, trace, k, hz))
  }

  ghost predicate PacedAt(x: Moment, trace: seq<Delayed>, k: nat, hz: nat)
    requires |x.log.trace| <= k < |trace|
  {
    Bits(hz, trace[|x.log.trace|..k + 1]) <= x.i.credit + (trace[k].out - x.i.delay - x.i.schedTime) * x.i.bw
  }

  lemma PacedNone(x: Moment, hz: nat)
    ensures Paced(x, x.log.trace, hz)
  {
  }

  /** All bits since `x`. */
  lemma BitsSince(x: Moment, z: Moment, hz: nat)
    requires x.Ok(hz) && z.Ok(hz) && Continued(x, z) && x.i.bw > 0
    ensures Bits(hz, z.log.trace[|x.log.trace|..]) == x.i.credit - z.i.credit + (z.i.schedTime - x.i.schedTime) * x.i.bw
  {
    hide Bits, DebtOk;
    BitsAppend(hz, x.log.trace, z.log.trace[|x.log.trace|..]);
    assert z.log.trace == x.log.trace + z.log.trace[|x.log.trace|..];
    Elapsed(x.i.bw, x.i.schedTime, z.i.schedTime);
  }

  /** The bits up to packet `k` are all but those of the last packet, unless it is the last one. */
  lemma BitsBefore(trace: seq<Delayed>, n: nat, k: nat, hz: nat)
    requires n <= k < |trace|
    ensures Bits(hz, trace[n..k + 1]) <= Bits(hz, trace[n..])
    ensures k < |trace| - 1 ==> Bits(hz, trace[n..k + 1]) + Scaled(hz, trace[|trace| - 1].pkt.len) <= Bits(hz, trace[n..])
  {
    hide Bits, Scaled;
    assert trace[n..] == trace[n..k + 1] + trace[k + 1..];
    BitsAppend(hz, trace[n..k + 1], trace[k + 1..]);
    if k < |trace| - 1 {
      var m := |trace| - 1;
      assert trace[k + 1..] == trace[k + 1..m] + [trace[m]];
      BitsNext(hz, trace[k + 1..m], trace[m]);
    }
  }

  lemma PacedNew(x: Moment, z: Moment, k: nat, hz: nat, now: int, sched: Option<int>)
    requires x.Ok(hz) && z.Ok(hz) && Continued(x, z) && x.i.bw > 0 && z.i.schedTime == now && Owed(z.i, sched)
    requires |x.log.trace| <= k < |z.log.trace|
    requires z.log.trace[k].out == z.i.delay + if z.i.credit < 0 && k == |z.log.trace| - 1 && sched != None then sched.value else now
    ensures PacedAt(x, z.log.trace, k, hz)
  {
    hide Bits, Scaled;
    BitsSince(x, z, hz);
    BitsBefore(z.log.trace, |x.log.trace|, k, hz);
    if z.i.credit < 0 && k == |z.log.trace| - 1 {
      Elapsed(x.i.bw, x.i.schedTime, now);
      Elapsed(x.i.bw, now, sched.value);
      Elapsed(x.i.bw, x.i.schedTime, sched.value);
    }
  }

  lemma PacedStep(x: Moment, y: Moment, z: Moment, hz: nat, now: int, sched: Option<int>)
    requires x.Ok(hz) && z.Ok(hz) && Continued(x, z) && Paced(x, y.log.trace, hz) && OnTime(y, z, now, sched)
    ensures Paced(x, z.log.trace, hz)
  {
    hide Bits, Scaled, DebtOk, Owed, Leaves, PacedAt;
    if x.i.bw > 0 {
      forall k | |x.log.trace| <= k < |z.log.trace|
        ensures PacedAt(x, z.log.trace, k, hz)
      {
        if k < |y.log.trace| {
          assert PacedAt(x, y.log.trace, k, hz);
          PacedBefore(x, y.log.trace, z.log.trace, k, hz);
        } else {
          PacedNew(x, z, k, hz, now, sched);
        }
      }
    }
  }

  lemma PacedBefore(x: Moment, a: seq<Delayed>, b: seq<Delayed>, k: nat, hz: nat)
    requires |x.log.trace| <= k < |a| && a <= b && PacedAt(x, a, k, hz)
    ensures PacedAt(x, b, k, hz)
  {
    assert a[|x.log.trace|..k + 1] == b[|x.log.trace|..k + 1];
  }

  lemma PacedUpTo(x: Moment, trace: seq<Delayed>, m: nat, t: int, hz: nat)
    requires Paced(x, trace, hz) && x.i.bw > 0 && |x.log.trace| < m <= |trace| && trace[m - 1].out <= t
    ensures Bits(hz, trace[|x.log.trace|..m]) <= x.i.credit + (t - x.i.delay - x.i.schedTime) * x.i.bw
  {
    hide Bits;
    assert PacedAt(x, trace, m - 1, hz);
    MulMono(trace[m - 1].out - x.i.delay - x.i.schedTime, t - x.i.delay - x.i.schedTime, x.i.bw);
  }

  /** A run since an instance was made or woken up, every step of which is that of some operation. */
  ghost predicate Stretch(run: seq<Moment>, hz: nat)
  {
    && |run| > 0 && (forall k :: 0 < k < |run| ==> Continued(run[k - 1], run[k]))
    && forall k :: 0 <= k < |run| ==> run[k].Ok(hz)
  }

  /** The runs of all instances end in the present. */
  ghost predicate PastOk(runs: seq<seq<Moment>>, vs: seq<Inst>, ls: seq<Log>, hz: nat)
  {
    && |runs| == |vs| == |ls|
    && forall n :: 0 <= n < |vs| ==>
         Stretch(runs[n], hz) && runs[n][|runs[n]| - 1] == Moment(vs[n], ls[n]) && Paced(runs[n][0], ls[n].trace, hz)
  }

  lemma StretchGrows(run: seq<Moment>, y: Moment, hz: nat)
    requires Stretch(run, hz) && Continued(run[|run| - 1], y) && y.Ok(hz)
    ensures Stretch(run + [y], hz)
  {
    hide Continued, Moment.Ok;
  }

  lemma StretchOf(runs: seq<seq<Moment>>, vs: seq<Inst>, ls: seq<Log>, n: nat, hz: nat)
    requires PastOk(runs, vs, ls, hz) && n < |vs|
    ensures |runs| == |vs| && Stretch(runs[n], hz) && runs[n][|runs[n]| - 1] == Moment(vs[n], ls[n]) && Paced(runs[n][0], ls[n].trace, hz)
  {
  }

  lemma PastOne(runs: seq<seq<Moment>>, vs: seq<Inst>, ls: seq<Log>, vs': seq<Inst>, ls': seq<Log>, n: nat, run: seq<Moment>, hz: nat)
    requires PastOk(runs, vs, ls, hz) && n < |vs| == |vs'| == |ls'| && vs' == vs[n := vs'[n]] && ls' == ls[n := ls'[n]]
    requires Stretch(run, hz) && run[|run| - 1] == Moment(vs'[n], ls'[n]) && Paced(run[0], ls'[n].trace, hz)
    ensures PastOk(runs[n := run], vs', ls', hz)
  {
    hide Stretch, Paced;
  }

  lemma PastNew(runs: seq<seq<Moment>>, vs: seq<Inst>, ls: seq<Log>, x: Moment, hz: nat)
    requires PastOk(runs, vs, ls, hz) && x.Ok(hz)
    ensures PastOk(runs + [[x]], vs + [x.i], ls + [x.log], hz)
  {
    hide Continued, Moment.Ok, Paced;
    PacedNone(x, hz);
  }

  lemma RunPaced(run: seq<Moment>, y: Moment, hz: nat, now: int, sched: Option<int>)
    requires Stretch(run, hz) && Continued(run[|run| - 1], y) && y.Ok(hz)
    requires Paced(run[0], run[|run| - 1].log.trace, hz) && OnTime(run[|run| - 1], y, now, sched)
    ensures Stretch(run + [y], hz) && Paced(run[0], y.log.trace, hz)
  {
    hide Continued, Moment.Ok, Paced, OnTime;
    StretchGrows(run, y, hz);
    var longer := run + [y];
    StretchPart(longer, 0, |run|, hz);
    assert longer[0] == run[0] && longer[|run|] == y;
    PacedStep(run[0], run[|run| - 1], y, hz, now, sched);
  }

  /** All that has left the delay lines was due. */
  ghost predicate AllLeft(ls: seq<Log>, now: int)
  {
    forall n, k :: 0 <= n < |ls| && 0 <= k < |ls[n].left| ==> ls[n].left[k].out <= now
  }

  lemma AllLeftOne(ls: seq<Log>, ls': seq<Log>, n: nat, now: int)
    requires AllLeft(ls, now) && n < |ls| == |ls'| && ls' == ls[n := ls'[n]] && Leaves(ls[n].left, ls'[n].left, now)
    ensures AllLeft(ls', now)
  {
    forall m, k | 0 <= m < |ls'| && 0 <= k < |ls'[m].left|
      ensures ls'[m].left[k].out <= now
    {
      assert m == n && k < |ls[n].left| ==> ls'[m].left[k] == ls[n].left[k];
    }
  }

  lemma AllLeftLater(ls: seq<Log>, now: int, now': int)
    requires AllLeft(ls, now) && now <= now'
    ensures AllLeft(ls, now')
  {
  }

  lemma AllLeftNew(ls: seq<Log>, l: Log, now: int)
    requires AllLeft(ls, now) && l.left == []
    ensures AllLeft(ls + [l], now)
  {
  }

  /** A service, as a step. */
  lemma OnTimeServed(x: Moment, y: Moment, n: nat, heap: map<nat, int>, now: int, hz: nat, q: seq<Packet>)
    requires Timed(x.log.trace, y.log.trace, now, y.i.delay, y.i.credit, KeyIn(heap, SchKey(n)))
    requires Charged(x.i, x.log.trace, y.i, y.log.trace, hz, now) && InstOk(y.i, n, heap, now) && Left(x.log.left, y.log.left, q, now)
    ensures OnTime(x, y, now, KeyIn(heap, SchKey(n)))
  {
    hide Timed, LineOk, Packets, Bits, Scaled;
  }

  lemma LeavesOf(left: seq<Delayed>, left': seq<Delayed>, q: seq<Packet>, now: int)
    requires Left(left, left', q, now)
    ensures Leaves(left, left', now)
  {
    hide Packets;
  }

  lemma OnTimeLeaves(x: Moment, y: Moment, now: int, sched: Option<int>)
    requires OnTime(x, y, now, sched)
    ensures Leaves(x.log.left, y.log.left, now)
  {
    hide Timed, Leaves;
  }

  /** A step that brings no packets. */
  lemma OnTimeSame(x: Moment, y: Moment, n: nat, heap: map<nat, int>, now: int)
    requires x.log.trace == y.log.trace && InstOk(y.i, n, heap, now) && y.i.delay == x.i.delay && Leaves(x.log.left, y.log.left, now)
    ensures OnTime(x, y, now, KeyIn(heap, SchKey(n)))
  {
    hide LineOk;
    TimedNone(y.log.trace, now, y.i.delay, y.i.credit, KeyIn(heap, SchKey(n)));
  }

  /** What has happened to an instance since a tick began, when its log was `a`: new packets have their time, and
      an instance that has been served is not due again. */
  ghost predicate TickOk(a: Log, y: Moment, now: int, sched: Option<int>)
  {
    && Timed(a.trace, y.log.trace, now, y.i.delay, y.i.credit, sched)
    && (a.trace != y.log.trace ==> sched == None || sched.value > now)
  }

  ghost predicate AllTick(a: seq<Log>, vs: seq<Inst>, ls: seq<Log>, heap: map<nat, int>, now: int)
  {
    |a| == |vs| == |ls| && forall n :: 0 <= n < |a| ==> TickOk(a[n], Moment(vs[n], ls[n]), now, KeyIn(heap, SchKey(n)))
  }

  /** The step that an event of instance `n` makes: a service, after which the instance is no due event, or
      a release, which changes nothing but the delay line. */
  ghost predicate Stepped(x: Moment, y: Moment, o: nat, heap: map<nat, int>, heap': map<nat, int>, now: int)
  {
    var sched := KeyIn(heap', SchKey(o / 2));
    && o in heap && heap[o] <= now && SameBut(heap - {o}, heap', o / 2)
    && if o % 2 == 0 then Timed(x.log.trace, y.log.trace, now, y.i.delay, y.i.credit, sched) && (sched == None || sched.value > now)
       else x.log.trace == y.log.trace && x.i.delay == y.i.delay && x.i.credit == y.i.credit && sched == KeyIn(heap, SchKey(o / 2))
  }

  lemma SteppedInst(x: Moment, y: Moment, n: nat, heap: map<nat, int>, heap': map<nat, int>, now: int)
    requires SchKey(n) in heap && heap[SchKey(n)] <= now && Later(heap - {SchKey(n)}, heap', n, now)
    requires Timed(x.log.trace, y.log.trace, now, y.i.delay, y.i.credit, KeyIn(heap', SchKey(n)))
    ensures Stepped(x, y, SchKey(n), heap, heap', now)
  {
    hide Timed;
  }

  lemma SteppedLine(x: Moment, y: Moment, n: nat, heap: map<nat, int>, heap': map<nat, int>, now: int)
    requires LineKey(n) in heap && heap[LineKey(n)] <= now && SameBut(heap - {LineKey(n)}, heap', n)
    requires x.log.trace == y.log.trace && x.i.delay == y.i.delay && x.i.credit == y.i.credit
    requires KeyIn(heap', SchKey(n)) == KeyIn(heap - {LineKey(n)}, SchKey(n))
    ensures Stepped(x, y, LineKey(n), heap, heap', now)
  {
    hide Timed;
  }

  lemma TickStart(vs: seq<Inst>, ls: seq<Log>, heap: map<nat, int>, now: int)
    requires |vs| == |ls|
    ensures AllTick(ls, vs, ls, heap, now)
  {
    hide KeyIn, Timed;
    forall n | 0 <= n < |ls|
      ensures TickOk(ls[n], Moment(vs[n], ls[n]), now, KeyIn(heap, SchKey(n)))
    {
      TimedNone(ls[n].trace, now, vs[n].delay, vs[n].credit, KeyIn(heap, SchKey(n)));
    }
  }

  lemma TickStep(a: seq<Log>, vs: seq<Inst>, ls: seq<Log>, heap: map<nat, int>, vs': seq<Inst>, ls': seq<Log>, heap': map<nat, int>, o: nat, now: int)
    requires AllTick(a, vs, ls, heap, now) && o / 2 < |vs| == |vs'| == |ls'| && vs' == vs[o / 2 := vs'[o / 2]] && ls' == ls[o / 2 := ls'[o / 2]]
    requires Stepped(Moment(vs[o / 2], ls[o / 2]), Moment(vs'[o / 2], ls'[o / 2]), o, heap, heap', now)
    ensures AllTick(a, vs', ls', heap', now)
  {
    hide Timed;
    forall n | 0 <= n < |a|
      ensures TickOk(a[n], Moment(vs'[n], ls'[n]), now, KeyIn(heap', SchKey(n)))
    {
      assert TickOk(a[n], Moment(vs[n], ls[n]), now, KeyIn(heap, SchKey(n)));
      if n != o / 2 {
        assert SchKey(n) != o && KeyIn(heap', SchKey(n)) == KeyIn(heap - {o}, SchKey(n)) == KeyIn(heap, SchKey(n));
      } else if o % 2 == 0 {
        assert o == SchKey(n) && KeyIn(heap, o) == Some(heap[o]);
      }
    }
  }

  /** Two moments of a run. */
  lemma StretchPart(run: seq<Moment>, j: nat, k: nat, hz: nat)
    requires Stretch(run, hz) && j <= k < |run|
    ensures Stretch(run[j..k + 1], hz) && Continued(run[j], run[k])
  {
    hide Continued, Moment.Ok;
    var part := run[j..k + 1];
    forall x | 0 < x < |part|
      ensures Continued(part[x - 1], part[x])
    {
      assert Continued(run[j + x - 1], run[j + x]);
    }
    RunContinues(part);
  }

  lemma ScaledMono(hz: nat, len: nat, len': nat)
    requires len <= len'
    ensures Scaled(hz, len) <= Scaled(hz, len')
  {
    MulMono(len * 8, len' * 8, hz);
  }

  lemma Elapsed(bw: nat, s: int, t: int)
    ensures t * bw - s * bw == bw * (t - s)
  {
  }

  /** The events that are due. */
  ghost function DueSet(heap: map<nat, int>, now: int): set<nat>
  {
    set o | o in heap && heap[o] <= now
  }

  /** Handling an event leaves fewer due, as its handler adds future ones only. */
  lemma FewerDue(heap: map<nat, int>, o: nat, heap': map<nat, int>, n: nat, now: int)
    requires o in heap && heap[o] <= now && Later(heap - {o}, heap', n, now)
    ensures |DueSet(heap', now)| < |DueSet(heap, now)|
  {
    var a, b := DueSet(heap', now), DueSet(heap, now);
    assert a <= b - {o};
    SmallerSet(a, b - {o});
    assert |b - {o}| == |b| - 1;
  }

  lemma AdvanceOk(insts: seq<Inst>, heap: map<nat, int>, now: int, now': int)
    requires AllOk(insts, heap, now) && now <= now'
    ensures AllOk(insts, heap, now')
  {
    hide LineOk;
    forall n | 0 <= n < |insts|
      ensures InstOk(insts[n], n, heap, now')
    {
      assert InstOk(insts[n], n, heap, now);
    }
  }

  /** An instance whose event is due may be served. */
  lemma PopInst(insts: seq<Inst>, heap: map<nat, int>, n: nat, now: int)
    requires AllOk(insts, heap, now) && SchKey(n) in heap && heap[SchKey(n)] <= now
    ensures n < |insts| && Ready(insts[n], n, heap - {SchKey(n)}, now)
  {
    var i := insts[n];
    assert InstOk(i, n, heap, now);
    MulMono(heap[SchKey(n)] - i.schedTime, now - i.schedTime, i.bw);
    MulMono(0, now - i.schedTime, i.bw);
  }

  lemma PopLine(insts: seq<Inst>, heap: map<nat, int>, n: nat, now: int)
    requires AllOk(insts, heap, now) && LineKey(n) in heap
    ensures n < |insts| && Sorted(insts[n].dline) && Served(insts[n], n, heap - {LineKey(n)}, now, true)
  {
    assert InstOk(insts[n], n, heap, now);
  }

  lemma InHeap(insts: seq<Inst>, heap: map<nat, int>, o: nat, now: int)
    requires AllOk(insts, heap, now) && o in heap
    ensures o / 2 < |insts|
  {
  }

  lemma PopOthers(insts: seq<Inst>, heap: map<nat, int>, n: nat, o: nat, now: int)
    requires AllOk(insts, heap, now) && (o == SchKey(n) || o == LineKey(n))
    ensures OthersOk(insts, n, heap - {o}, now)
  {
    hide LineOk, SchedOk;
    forall k | 0 <= k < |insts| && k != n
      ensures InstOk(insts[k], k, heap - {o}, now)
    {
      assert InstOk(insts[k], k, heap, now);
    }
  }

  lemma AllOkFrom(insts: seq<Inst>, n: nat, heap: map<nat, int>, now: int)
    requires OthersOk(insts, n, heap, now) && n < |insts| && InstOk(insts[n], n, heap, now)
    ensures AllOk(insts, heap, now)
  {
    hide InstOk;
  }

  /** When no event is due, no packet is. */
  lemma NothingDue(insts: seq<Inst>, heap: map<nat, int>, now: int)
    requires AllOk(insts, heap, now) && DueSet(heap, now) == {}
    ensures forall n :: 0 <= n < |insts| ==> forall k :: 0 <= k < |insts[n].dline| ==> insts[n].dline[k].out > now
  {
    hide SchedOk;
    forall n, k | 0 <= n < |insts| && 0 <= k < |insts[n].dline|
      ensures insts[n].dline[k].out > now
    {
      assert InstOk(insts[n], n, heap, now);
      assert LineKey(n) !in DueSet(heap, now);
      assert insts[n].dline[0].out <= insts[n].dline[k].out;
    }
  }

  lemma ProceedsTrans(insts: seq<Inst>, a: seq<Log>, b: seq<Log>, c: seq<Log>, now: int)
    requires AllProceed(insts, a, b, now) && AllProceed(insts, b, c, now)
    ensures AllProceed(insts, a, c, now)
  {
    forall n | 0 <= n < |a|
      ensures Proceeds(insts[n], a[n], c[n], now)
    {
      ProceedsStep(insts[n], a[n], b[n], c[n], now);
    }
  }

  lemma ProceedsStep(i: Inst, a: Log, b: Log, c: Log, now: int)
    requires Proceeds(i, a, b, now) && Proceeds(i, b, c, now)
    ensures Proceeds(i, a, c, now)
  {
    assert forall k :: 0 <= k < |b.left| ==> b.left[k] == c.left[k];
  }

  lemma ProceedsOne(insts: seq<Inst>, a: seq<Log>, b: seq<Log>, n: nat, now: int)
    requires |insts| == |a| == |b| && n < |a| && b == a[n := b[n]] && Proceeds(insts[n], a[n], b[n], now)
    ensures AllProceed(insts, a, b, now)
  {
  }

  lemma ChargedLink(i: Inst, trace: seq<Delayed>, i': Inst, trace': seq<Delayed>, hz: nat, now: int)
    requires Charged(i, trace, i', trace', hz, now)
    ensures i'.bw == i.bw && i'.delay == i.delay
  {
  }

  lemma ChargedDebt(i: Inst, trace: seq<Delayed>, i': Inst, trace': seq<Delayed>, hz: nat, now: int)
    requires Charged(i, trace, i', trace', hz, now)
    ensures DebtOk(i', trace', hz)
  {
  }

  lemma DebtQueued(i: Inst, trace: seq<Delayed>, hz: nat, backlog: seq<Packet>)
    requires DebtOk(i, trace, hz)
    ensures DebtOk(i.(backlog := backlog), trace, hz)
  {
  }

  lemma NoDebt(i: Inst, trace: seq<Delayed>, hz: nat)
    requires i.credit >= 0
    ensures DebtOk(i, trace, hz)
  {
  }

  /** One service, as the log of its instance shows it. */
  lemma ChargedProceeds(i: Inst, a: Log, i': Inst, b: Log, q: seq<Packet>, hz: nat, now: int)
    requires Charged(i, a.trace, i', b.trace, hz, now) && Left(a.left, b.left, q, now)
    requires a.account == Bits(hz, a.trace) + i.credit - i.schedTime * i.bw && b.account == Bits(hz, b.trace) + i'.credit - i'.schedTime * i'.bw
    requires a.held == b.held
    ensures Proceeds(i, a, b, now) && DebtOk(i', b.trace, hz)
  {
  }

  /** A release, as the log of its instance shows it. */
  lemma LineProceeds(i: Inst, a: Log, b: Log, now: int)
    requires a.trace == a.left + i.dline && b == a.(left := a.left + i.dline[..Due(i.dline, now)])
    ensures Proceeds(i, a, b, now)
    ensures b.left + i.dline[Due(i.dline, now)..] == a.trace
  {
    hide Due;
    LeftDue(a.left, i.dline, now);
  }

  lemma DebtSame(i: Inst, trace: seq<Delayed>, hz: nat, rest: seq<Delayed>)
    requires DebtOk(i, trace, hz)
    ensures DebtOk(i.(dline := rest), trace, hz)
  {
  }

  lemma LaterSame(heap: map<nat, int>, heap': map<nat, int>, n: nat, now: int)
    requires Later(heap, heap', n, now)
    ensures SameBut(heap, heap', n)
  {
  }

  lemma ProceedsNone(insts: seq<Inst>, a: seq<Log>, now: int)
    requires |insts| == |a|
    ensures AllProceed(insts, a, a, now)
  {
  }

  ghost predicate SameLinks(a: seq<Inst>, b: seq<Inst>)
  {
    |a| == |b| && forall n :: 0 <= n < |a| ==> a[n].bw == b[n].bw
  }

  lemma ProceedsLinks(vs: seq<Inst>, us: seq<Inst>, a: seq<Log>, b: seq<Log>, now: int)
    requires SameLinks(vs, us) && AllProceed(us, a, b, now)
    ensures AllProceed(vs, a, b, now)
  {
    forall n | 0 <= n < |a|
      ensures Proceeds(vs[n], a[n], b[n], now)
    {
      assert Proceeds(us[n], a[n], b[n], now);
    }
  }

  /** The packets among `q` that come from the delay line of `n`, when `who` says where each comes from. */
  ghost function From(q: seq<Packet>, who: seq<nat>, n: nat): (r: seq<Packet>)
    requires |who| == |q|
  {
    if q == [] then [] else
      var k := |q| - 1;
      From(q[..k], who[..k], n) + if who[k] == n then [q[k]] else []
  }

  lemma {:induction false} FromAppend(q: seq<Packet>, who: seq<nat>, q': seq<Packet>, who': seq<nat>, n: nat)
    requires |who| == |q| && |who'| == |q'|
    ensures From(q + q', who + who', n) == From(q, who, n) + From(q', who', n)
  {
    if q' == [] {
      assert q + q' == q && who + who' == who;
    } else {
      var k, m := |q'| - 1, |q + q'| - 1;
      assert (q + q')[..m] == q + q'[..k] && (who + who')[..m] == who + who'[..k];
      FromAppend(q, who, q'[..k], who'[..k], n);
    }
  }

  lemma {:induction false} FromOne(q: seq<Packet>, who: seq<nat>, o: nat, n: nat)
    requires |who| == |q| && forall k :: 0 <= k < |who| ==> who[k] == o
    ensures From(q, who, n) == if o == n then q else []
  {
    if q != [] {
      var k := |q| - 1;
      FromOne(q[..k], who[..k], o, n);
      assert q == q[..k] + [q[k]];
    }
  }

  /** `q` is what has left all delay lines, each in its order. */
  ghost predicate Merged(q: seq<Packet>, who: seq<nat>, a: seq<Log>, b: seq<Log>)
  {
    && |who| == |q| && |a| == |b| && (forall k :: 0 <= k < |who| ==> who[k] < |a|)
    && forall n :: 0 <= n < |a| ==> a[n].left <= b[n].left && Packets(b[n].left[|a[n].left|..]) == From(q, who, n)
  }

  lemma MergedNone(a: seq<Log>)
    ensures Merged([], [], a, a)
  {
    forall n | 0 <= n < |a|
      ensures Packets(a[n].left[|a[n].left|..]) == []
    {
      assert a[n].left[|a[n].left|..] == [];
    }
  }

  lemma MergedOne(q: seq<Packet>, who: seq<nat>, a: seq<Log>, b: seq<Log>, o: nat, now: int)
    requires |who| == |q| && forall k :: 0 <= k < |who| ==> who[k] == o
    requires o < |a| == |b| && b == a[o := b[o]] && Left(a[o].left, b[o].left, q, now)
    ensures Merged(q, who, a, b)
  {
    hide Packets;
    MergedNone(a);
    forall n | 0 <= n < |a|
      ensures a[n].left <= b[n].left && Packets(b[n].left[|a[n].left|..]) == From(q, who, n)
    {
      FromOne(q, who, o, n);
      assert From([], [], n) == [];
    }
  }

  lemma PacketsAppend(d: seq<Delayed>, e: seq<Delayed>)
    ensures Packets(d + e) == Packets(d) + Packets(e)
  {
  }

  lemma MergedTrans(q: seq<Packet>, who: seq<nat>, q': seq<Packet>, who': seq<nat>, a: seq<Log>, b: seq<Log>, c: seq<Log>)
    requires Merged(q, who, a, b) && Merged(q', who', b, c)
    ensures Merged(q + q', who + who', a, c)
  {
    hide Packets, From;
    forall n | 0 <= n < |a|
      ensures a[n].left <= c[n].left && Packets(c[n].left[|a[n].left|..]) == From(q + q', who + who', n)
    {
      FromAppend(q, who, q', who', n);
      var x, y, z := a[n].left, b[n].left, c[n].left;
      assert z[|x|..] == y[|x|..] + z[|y|..];
      PacketsAppend(y[|x|..], z[|y|..]);
    }
  }

  lemma NoneDue(heap: map<nat, int>, now: int)
    requires forall o :: o in heap ==> heap[o] > now
    ensures DueSet(heap, now) == {}
  {
  }

  ghost function ViewsOf(insts: seq<SchInst>): (vs: seq<Inst>)
    reads insts
    ensures |vs| == |insts| && forall n :: 0 <= n < |insts| ==> vs[n] == insts[n].View()
  {
    seq(|insts|, n requires 0 <= n < |insts| reads insts => insts[n].View())
  }

  ghost function LogOf(si: SchInst, hz: nat): Log
    reads si
  {
    Log(si.left, si.Trace(), Bits(hz, si.Trace()) + si.credit - si.schedTime * si.bw, Held(si.backlog, si.Trace()))
  }

  ghost function LogsOf(insts: seq<SchInst>, hz: nat): (ls: seq<Log>)
    reads insts
    ensures |ls| == |insts| && forall n :: 0 <= n < |insts| ==> ls[n] == LogOf(insts[n], hz)
  {
    seq(|insts|, n requires 0 <= n < |insts| reads insts => LogOf(insts[n], hz))
  }

  lemma PresentTrace(si: SchInst, hz: nat)
    ensures LogOf(si, hz).trace == si.Trace() && LogOf(si, hz).left == si.left
  {
    hide Bits, Held;
  }

  /** The present moment of an instance. */
  ghost function Now(si: SchInst, hz: nat): Moment
    reads si
  {
    Moment(si.View(), LogOf(si, hz))
  }

  lemma NowOk(si: SchInst, hz: nat)
    requires DebtOk(si.View(), si.Trace(), hz)
    ensures Now(si, hz).Ok(hz)
  {
    hide Bits, Held, DebtOk;
  }

  ghost predicate RunAppends(a: seq<seq<Moment>>, b: seq<seq<Moment>>, n: nat, x: Moment)
  {
    n < |a| && b == a[n := a[n] + [x]]
  }

  ghost predicate RunRestarts(a: seq<seq<Moment>>, b: seq<seq<Moment>>, n: nat, x: Moment, y: Moment)
  {
    n < |a| && b == a[n := [x, y]]
  }

  ghost predicate RunsGrow(a: seq<seq<Moment>>, b: seq<seq<Moment>>)
  {
    |a| == |b| && forall n :: 0 <= n < |a| ==> a[n] <= b[n]
  }

  /** The release of due packets from the delay line of instance `n`. */
  lemma LineHandled(i: Inst, a: Log, n: nat, heap: map<nat, int>, now: int, hz: nat)
    requires Served(i, n, heap, now, true) && a.trace == a.left + i.dline && DebtOk(i, a.trace, hz)
    ensures Sorted(i.dline) && LineKey(n) !in heap
    ensures var d := Due(i.dline, now);
            var rest := i.dline[d..];
            var heap' := if rest == [] then heap else heap[LineKey(n) := rest[0].out];
            && InstOk(i.(dline := rest), n, heap', now) && Later(heap, heap', n, now)
            && Proceeds(i, a, a.(left := a.left + i.dline[..d]), now)
            && a.left + i.dline[..d] + rest == a.trace && DebtOk(i.(dline := rest), a.trace, hz)
  {
    hide Due, Sorted, InstOk, Later, Proceeds, DebtOk;
    var d := Due(i.dline, now);
    ServedSorted(i, n, heap, now);
    ServedDone(i, n, heap, now);
    LaterLine(heap, n, now, i.dline);
    LineProceeds(i, a, a.(left := a.left + i.dline[..d]), now);
    DebtSame(i, a.trace, hz, i.dline[d..]);
  }

  // ---------------------------------------------------------------- arrivals

  /** The credit that an instance starts with when a packet ends its idle time. */
  function Allowance(bw: nat, burst: nat, idle: nat, fast: bool): (c: nat)
    ensures c <= bw + burst
  {
    (if fast then bw else 0) + if burst == 0 then 0 else if idle * bw > burst then burst else idle * bw
  }

  /** An idle instance after a packet has come for it. */
  ghost function Woken(i: Inst, m: Packet, now: int, fast: bool): Inst
  {
    var j := i.(backlog := i.backlog + [m]);
    if i.idleTime < now then j.(schedTime := now, credit := Allowance(i.bw, i.burst, now - i.idleTime, fast)) else j
  }

  /** The allowance of an idle instance: on the first packet since an earlier tick, and apart from what one tick
      carries when packets may be passed on at once, it is the lesser one of the burst and what the link would
      have carried since the instance became idle; its time starts now. Later packets of a tick bring nothing. */
  lemma AllowanceIs(i: Inst, m: Packet, now: int, fast: bool)
    ensures var j := Woken(i, m, now, fast);
            var c := j.credit - if fast then i.bw else 0;
            && j.backlog == i.backlog + [m] && j == i.(backlog := j.backlog, credit := j.credit, schedTime := j.schedTime)
            && if i.idleTime >= now then j.credit == i.credit && j.schedTime == i.schedTime
               else j.schedTime == now && c <= i.burst && c <= (now - i.idleTime) * i.bw && (c == i.burst || c == (now - i.idleTime) * i.bw)
  {
    if i.idleTime < now {
      MulMono(0, now - i.idleTime, i.bw);
    }
  }

  /** A new instance. */
  ghost function Fresh(bw: nat, delay: nat, burst: nat, now: int, fast: bool): Inst
  {
    Inst(bw, delay, burst, burst + if fast then bw else 0, 0, now, false, [], [])
  }

  /** The first service of a new instance spends an allowance only in a later tick. In the tick in which the
      instance was made it spends what the link carries since time 0, so that the link is not limited then. */
  lemma FirstService(bw: nat, delay: nat, burst: nat, made: nat, fast: bool, m: Packet, now: nat, fastNow: bool,
                     i: Inst, trace: seq<Delayed>, hz: nat)
    requires bw > 0 && made <= now && Charged(Woken(Fresh(bw, delay, burst, made, fast), m, now, fastNow), [], i, trace, hz, now)
    ensures i.credit + Bits(hz, trace) == if now == made then burst + (if fast then bw else 0) + now * bw
                                          else Allowance(bw, burst, now - made, fastNow)
    ensures i.credit < 0 ==> |trace| > 0 && i.credit + Scaled(hz, trace[|trace| - 1].pkt.len) >= 0
  {
    hide Scaled, Allowance;
    assert Bits(hz, []) == 0;
  }

  lemma WokenReady(i: Inst, n: nat, heap: map<nat, int>, m: Packet, now: int, fast: bool)
    requires InstOk(i, n, heap, now) && !i.active
    ensures Ready(Woken(i, m, now, fast), n, heap, now)
  {
    MulMono(0, now - i.schedTime, i.bw);
  }

  lemma QueuedOk(i: Inst, n: nat, heap: map<nat, int>, m: Packet, now: int)
    requires InstOk(i, n, heap, now) && i.active
    ensures InstOk(i.(backlog := i.backlog + [m]), n, heap, now)
  {
  }

  lemma InstOf(insts: seq<Inst>, n: nat, heap: map<nat, int>, now: int)
    requires AllOk(insts, heap, now) && n < |insts|
    ensures InstOk(insts[n], n, heap, now) && OthersOk(insts, n, heap, now)
    ensures insts[n].active <==> SchKey(n) in heap
    ensures !insts[n].active ==> insts[n].credit >= 0 && insts[n].backlog == []
  {
    assert InstOk(insts[n], n, heap, now);
  }

  lemma SameHeap(heap: map<nat, int>, n: nat)
    ensures SameBut(heap, heap, n)
  {
  }

  lemma NewInstOk(insts: seq<Inst>, heap: map<nat, int>, now: int, i: Inst)
    requires AllOk(insts, heap, now) && i.credit >= 0 && i.schedTime == 0 <= now && !i.active && i.backlog == [] && i.dline == []
    ensures AllOk(insts + [i], heap, now)
  {
    var all := insts + [i];
    forall n | 0 <= n < |all|
      ensures InstOk(all[n], n, heap, now)
    {
      assert n < |insts| ==> InstOk(insts[n], n, heap, now);
    }
  }

  /** An instance that has just been woken up, before it is served. */
  ghost function WokenMoment(x: Moment, m: Packet, now: int, fast: bool, hz: nat): Moment
  {
    var j := Woken(x.i, m, now, fast);
    Moment(j, Log(x.log.left, x.log.trace, Bits(hz, x.log.trace) + j.credit - j.schedTime * j.bw, Held(j.backlog, x.log.trace)))
  }

  /** A packet has woken an idle instance up, which has then been served. */
  ghost predicate Awoken(x: Moment, y: Moment, m: Packet, now: int, fast: bool, hz: nat)
  {
    Charged(Woken(x.i, m, now, fast), x.log.trace, y.i, y.log.trace, hz, now) && y.log.held == x.log.held + multiset{m}
  }

  /** A packet waits at an active instance. */
  ghost predicate Joined(x: Moment, y: Moment, m: Packet)
  {
    y.i == x.i.(backlog := x.i.backlog + [m]) && y.log.trace == x.log.trace && y.log.left == x.log.left
  }

  /** `gone` has left the delay line, `done` packets have come into it, and `r` is passed on to the caller. */
  ghost predicate Passed(x: Moment, y: Moment, gone: seq<Packet>, r: seq<Packet>, wait: nat, done: nat, now: int)
  {
    && Left(x.log.left, y.log.left, gone, now) && r == Result(wait, gone) && |y.log.trace| == |x.log.trace| + done
    && (r == gone <==> !Lost(x.i.dline == [], x.i.delay, wait, done))
  }

  lemma PassedNone(x: Moment, y: Moment, now: int)
    requires y.log.left == x.log.left && y.log.trace == x.log.trace
    ensures Passed(x, y, [], [], 0, 0, now)
  {
    assert y.log.left[|x.log.left|..] == [];
  }

  lemma JoinOnTime(x: Moment, y: Moment, m: Packet, n: nat, heap: map<nat, int>, now: int)
    requires Joined(x, y, m) && InstOk(y.i, n, heap, now)
    ensures OnTime(x, y, now, KeyIn(heap, SchKey(n)))
  {
    hide InstOk, OnTime, KeyIn;
    OnTimeSame(x, y, n, heap, now);
  }

  lemma WokenContinues(x: Moment, y: Moment, m: Packet, now: int, fast: bool, hz: nat)
    requires x.i.credit >= 0 && Awoken(x, y, m, now, fast, hz) && y.Ok(hz)
    ensures WokenMoment(x, m, now, fast, hz).Ok(hz) && Continued(WokenMoment(x, m, now, fast, hz), y)
  {
    hide Bits, Held, Allowance;
    var j := Woken(x.i, m, now, fast);
    Elapsed(j.bw, j.schedTime, now);
  }

  lemma WokenOnTime(x: Moment, y: Moment, m: Packet, now: int, fast: bool, hz: nat, n: nat, heap: map<nat, int>,
                    gone: seq<Packet>, r: seq<Packet>, wait: nat, done: nat)
    requires Awoken(x, y, m, now, fast, hz) && Passed(x, y, gone, r, wait, done, now) && InstOk(y.i, n, heap, now)
    requires Timed(x.log.trace, y.log.trace, now, y.i.delay, y.i.credit, KeyIn(heap, SchKey(n)))
    ensures OnTime(WokenMoment(x, m, now, fast, hz), y, now, KeyIn(heap, SchKey(n)))
    ensures WokenMoment(x, m, now, fast, hz).log.left == x.log.left
  {
    hide Timed, Charged, Bits, Held, InstOk, OnTime, KeyIn, Left, Allowance;
    OnTimeServed(WokenMoment(x, m, now, fast, hz), y, n, heap, now, hz, gone);
  }

  lemma ReleasedOne(x: Moment, si: SchInst, gone: seq<Packet>, m: Packet, now: int, hz: nat)
    requires Left(x.log.left, si.left, gone, now) && (x.i.dline != [] ==> gone == []) && x.log.trace == x.log.left + x.i.dline
    requires Held(si.backlog, si.Trace()) == Held([m], x.log.trace)
    ensures gone == [] || gone == [m]
  {
    hide Held, Packets;
    if x.i.dline == [] {
      assert x.log.left + x.i.dline == x.log.left;
      OnlyThis(si.backlog, x.log.left, si.left, si.dline, m);
    }
  }

  lemma AwokenNow(x: Moment, si: SchInst, m: Packet, now: int, fast: bool, hz: nat)
    requires Charged(Woken(x.i, m, now, fast), x.log.trace, si.View(), si.Trace(), hz, now)
    requires x.i.backlog == [] && x.log.held == Held([], x.log.trace) && Held(si.backlog, si.Trace()) == Held([m], x.log.trace)
    ensures Awoken(x, Now(si, hz), m, now, fast, hz)
  {
    hide Bits, Charged, Woken;
  }

  lemma PassedNow(x: Moment, si: SchInst, gone: seq<Packet>, r: seq<Packet>, wait: nat, done: nat, now: int, hz: nat)
    requires Left(x.log.left, si.left, gone, now) && r == Result(wait, gone) && |si.Trace()| == |x.log.trace| + done
    requires r == gone <==> !Lost(x.i.dline == [], x.i.delay, wait, done)
    ensures Passed(x, Now(si, hz), gone, r, wait, done, now)
  {
    hide Bits, Held, Left, Lost, Result;
  }

  class Emulator {
    const hz: nat
    const evheap: H.Heap
    var insts: seq<SchInst>
    var currTime: nat
    /** What has happened to each instance since it was made or woken up last. */
    ghost var runs: seq<seq<Moment>>

    constructor (hz: nat, now: nat)
      ensures Valid() && fresh(evheap) && insts == [] && currTime == now && this.hz == hz
    {
      this.hz, currTime, insts, runs := hz, now, [], [];
      var c := new H.Offsets();
      evheap := new H.Heap(16, c);
    }

    ghost predicate Ids()
      reads this`insts
    {
      forall n :: 0 <= n < |insts| ==> insts[n].id == n
    }

    ghost predicate Heap()
      reads evheap, evheap.p, evheap.cells
    {
      evheap.Valid()
    }

    ghost function Views(): (vs: seq<Inst>)
      reads this`insts, insts
      ensures |vs| == |insts| && forall n :: 0 <= n < |insts| ==> vs[n] == insts[n].View()
    {
      ViewsOf(insts)
    }

    ghost function Logs(): (ls: seq<Log>)
      reads this`insts, insts
      ensures |ls| == |insts| && forall n :: 0 <= n < |insts| ==> ls[n] == LogOf(insts[n], hz)
    {
      LogsOf(insts, hz)
    }

    ghost predicate Debts()
      reads this`insts, insts
    {
      forall n :: 0 <= n < |insts| ==> DebtOk(insts[n].View(), insts[n].Trace(), hz)
    }

    ghost predicate Valid()
      reads this, insts, evheap, evheap.p, evheap.cells
    {
      Sound() && PastOk(runs, Views(), Logs(), hz) && AllLeft(Logs(), currTime)
    }

    ghost predicate Sound()
      reads this`insts, this`currTime, insts, evheap, evheap.p, evheap.cells
    {
      Ids() && Heap() && AllOk(Views(), evheap.contents, currTime) && Debts()
    }

    /** Only instance `n` differs from what `vs` and `ls` show. */
    ghost predicate Only(vs: seq<Inst>, ls: seq<Log>, n: nat)
      reads this`insts, insts
    {
      n < |insts| == |vs| == |ls| && Views() == vs[n := insts[n].View()] && Logs() == ls[n := LogOf(insts[n], hz)]
    }

    /** The rate of a link over any part of a run of the emulator in which its instance has not been woken
        up, whatever happened to other instances: from a wake-up, with its allowance as the credit, or
        from any later event. */
    lemma RateSinceWakeUp(n: nat, j: nat, k: nat, maxLen: nat)
      requires Valid() && n < |insts| && insts[n].bw > 0 && j <= k < |runs[n]|
      requires forall d :: d in insts[n].Trace() ==> d.pkt.len <= maxLen
      ensures runs[n][j].log.trace <= runs[n][k].log.trace <= insts[n].Trace()
      ensures var x, y := runs[n][j], runs[n][k];
              var served, ticks := Bits(hz, y.log.trace[|x.log.trace|..]), y.i.schedTime - x.i.schedTime;
              && served <= insts[n].bw * ticks + x.i.credit + Scaled(hz, maxLen)
              && (x.i.credit < 0 ==> served < insts[n].bw * ticks + Scaled(hz, maxLen))
    {
      hide Bits, Scaled, DebtOk, Stretch, AllOk, H.Heap.Valid, LogOf;
      StretchOf(runs, Views(), Logs(), n, hz);
      var last := |runs[n]| - 1;
      StretchPart(runs[n], j, k, hz);
      StretchPart(runs[n], j, last, hz);
      StretchPart(runs[n], k, last, hz);
      PresentTrace(insts[n], hz);
      assert forall d :: d in runs[n][k].log.trace ==> d in insts[n].Trace();
      RateOverRun(runs[n][j..k + 1], hz, maxLen);
    }

    /** The bound between a wake-up and now. */
    lemma RateNow(n: nat, maxLen: nat)
      requires Valid() && n < |insts| && insts[n].bw > 0
      requires forall d :: d in insts[n].Trace() ==> d.pkt.len <= maxLen
      ensures |runs[n]| > 0 && runs[n][0].log.trace <= insts[n].Trace()
      ensures var x := runs[n][0];
              Bits(hz, insts[n].Trace()[|x.log.trace|..]) <= insts[n].bw * (insts[n].schedTime - x.i.schedTime) + x.i.credit + Scaled(hz, maxLen)
    {
      hide Bits, Scaled, DebtOk, Stretch, AllOk, H.Heap.Valid, LogOf;
      StretchOf(runs, Views(), Logs(), n, hz);
      PresentTrace(insts[n], hz);
      StretchPart(runs[n], 0, |runs[n]| - 1, hz);
      RateSinceWakeUp(n, 0, |runs[n]| - 1, maxLen);
    }

    /** The rate at which packets leave a link: by any time `t`, the bits that have left since an instance was
        woken up are no more than its allowance and what its link carries until a link delay before `t`.
        The packets that have left by now are `left`, and no packet comes on top of the bound. */
    lemma RateReleased(n: nat, m: nat, t: int)
      requires Valid() && n < |insts| && insts[n].bw > 0
      ensures |runs[n]| > 0 && runs[n][0].log.trace <= insts[n].Trace() && insts[n].left <= insts[n].Trace()
      ensures forall k :: 0 <= k < |insts[n].left| ==> insts[n].left[k].out <= currTime
      ensures var x, all := runs[n][0], insts[n].Trace();
              |x.log.trace| < m <= |all| && all[m - 1].out <= t ==>
                hz * (8 * Bytes(Packets(all[|x.log.trace|..m]))) <= x.i.credit + (t - insts[n].delay - x.i.schedTime) * insts[n].bw
    {
      hide Bits, Scaled, DebtOk, Stretch, AllOk, H.Heap.Valid, LogOf, Paced, Packets;
      StretchOf(runs, Views(), Logs(), n, hz);
      PresentTrace(insts[n], hz);
      StretchPart(runs[n], 0, |runs[n]| - 1, hz);
      var x, all := runs[n][0], insts[n].Trace();
      assert forall k :: 0 <= k < |insts[n].left| ==> Logs()[n].left[k].out <= currTime;
      if |x.log.trace| < m <= |all| && all[m - 1].out <= t {
        PacedUpTo(x, all, m, t, hz);
        BitsAre(hz, all[|x.log.trace|..m]);
      }
    }

    method Schedule(key: int, o: nat)
      requires Heap() && o !in evheap.contents
      modifies evheap, evheap.p, evheap.cells
      ensures Heap() && (evheap.p == old(evheap.p) || fresh(evheap.p))
      ensures evheap.contents == old(evheap.contents)[o := key]
    {
      evheap.Insert(key, o);
    }

    /** transmit_event */
    method TransmitEvent(si: SchInst) returns (q: seq<Packet>)
      requires Heap() && Sorted(si.dline) && LineKey(si.id) !in evheap.contents
      modifies evheap, evheap.p, evheap.cells, si`dline, si`left
      ensures Heap() && (evheap.p == old(evheap.p) || fresh(evheap.p))
      ensures var d := Due(old(si.dline), currTime);
              && si.dline == old(si.dline)[d..] && si.left == old(si.left) + old(si.dline)[..d]
              && q == Packets(old(si.dline)[..d])
      ensures evheap.contents == if si.dline == [] then old(evheap.contents) else old(evheap.contents)[LineKey(si.id) := si.dline[0].out]
    {
      hide ViewsOf, LogsOf, Held, H.Heap.Valid, Packets;
      q := si.ReleaseDue(currTime);
      if si.dline != [] {
        Schedule(si.dline[0].out, LineKey(si.id));
      }
    }

    /** The end of serve_sched: the instance goes idle, or back into the heap with the output time of
        its last packet, which was too early, put off. */
    method Settle(si: SchInst, done: nat)
      requires Heap() && SchKey(si.id) !in evheap.contents
      requires si.credit < 0 ==> si.bw > 0 && |si.dline| > 0
      modifies evheap, evheap.p, evheap.cells, si
      ensures Heap() && (evheap.p == old(evheap.p) || fresh(evheap.p))
      ensures si.left == old(si.left)
      ensures old(si.credit) >= 0 ==> si.View() == old(si.View()).(idleTime := currTime)
      ensures old(si.credit) >= 0 ==> evheap.contents == old(evheap.contents)
      ensures old(si.credit) < 0 ==>
                var t := Delay(si.credit, si.bw);
                && evheap.contents == old(evheap.contents)[SchKey(si.id) := currTime + t]
                && si.View() == old(si.View()).(active := true, dline := PutOff(old(si.dline), t))
    {
      hide H.Heap.Valid;
      if si.credit >= 0 {
        si.idleTime := currTime;
      } else {
        var t := Delay(si.credit, si.bw);
        var k := |si.dline| - 1;
        si.dline := si.dline[k := si.dline[k].(out := si.dline[k].out + t)];
        si.active := true;
        Schedule(currTime + t, SchKey(si.id));
      }
    }

    /** serve_sched up to the loop: the credit for the time since the last service. */
    method Refill(si: SchInst)
      modifies si
      ensures si.left == old(si.left)
      ensures var c := if si.bw > 0 then old(si.credit) + (currTime - old(si.schedTime)) * si.bw else 0;
              si.View() == old(si.View()).(active := false, credit := c, schedTime := currTime)
    {
      si.active := false;
      if si.bw > 0 {
        si.credit := si.credit + (currTime - si.schedTime) * si.bw;
      } else {
        si.credit := 0;
      }
      si.schedTime := currTime;
    }

    /** serve_sched up to the release of packets; `done` is how many have been served, and the scheduler
        has asked to be called after `wait` ticks. */
    method ServeQueue(si: SchInst) returns (wait: nat, done: nat)
      requires Heap() && Ready(si.View(), si.id, evheap.contents, currTime)
      modifies evheap, evheap.p, evheap.cells, si
      ensures Heap() && (evheap.p == old(evheap.p) || fresh(evheap.p))
      ensures Served(si.View(), si.id, evheap.contents, currTime, old(si.dline) == [] && done > 0)
      ensures Later(old(evheap.contents), evheap.contents, si.id, currTime)
      ensures Held(si.backlog, si.Trace()) == old(Held(si.backlog, si.Trace()))
      ensures |si.dline| == |old(si.dline)| + done && (wait > 0 ==> Grown(old(si.dline), si.dline, done, currTime + si.delay))
      ensures si.left == old(si.left) && Charged(old(si.View()), old(si.Trace()), si.View(), si.Trace(), hz, currTime)
      ensures Timed(old(si.Trace()), si.Trace(), currTime, si.delay, si.credit, KeyIn(evheap.contents, SchKey(si.id)))
      ensures wait > 0 ==> KeyIn(evheap.contents, SchKey(si.id)) == Some(currTime + wait)
      ensures si.active <==> wait > 0 || si.credit < 0
    {
      hide ViewsOf, LogsOf, Held, Bits, H.Heap.Valid, Packets, Served, LineOk, Bounded, Grown, Filled, PutOff, Later, Delay, KeyIn, Sorted, Timed;
      ghost var was, heap := si.dline, evheap.contents;
      OfReady(si.View(), si.id, heap, currTime);
      Refill(si);
      ghost var last;
      wait, done, last := si.ServeLoop(hz, currTime);
      FilledBy(was, si.View(), done, currTime);
      GrownTrace(si.left, was, si.dline, done, currTime + si.delay);
      LaterSched(heap, si.id, currTime, currTime + 1);
      if wait > 0 {
        si.Wake();
        LaterSched(heap, si.id, currTime, currTime + wait);
        ServedLater(was, si.View(), si.id, heap, done, currTime, wait);
        TimedGrown(si.left, was, si.dline, done, currTime, si.delay, si.credit, KeyIn(heap[SchKey(si.id) := currTime + wait], SchKey(si.id)));
        KeySet(heap, SchKey(si.id), currTime + wait, 0);
        Schedule(currTime + wait, SchKey(si.id));
      } else {
        ghost var i := si.View();
        if si.credit >= 0 {
          ServedIdle(was, i.(idleTime := currTime), si.id, heap, done, currTime);
          TimedGrown(si.left, was, i.dline, done, currTime, i.delay, i.credit, KeyIn(heap, SchKey(si.id)));
        } else {
          ServedDebt(was, i, si.id, heap, done, currTime);
          PutOffGrown(si.left, was, i.dline, done, currTime + i.delay, Delay(i.credit, i.bw), hz);
          LaterSched(heap, si.id, currTime, currTime + Delay(i.credit, i.bw));
          TimedPutOff(si.left, was, i.dline, done, currTime, i.delay, i.credit, Delay(i.credit, i.bw));
          KeySet(heap, SchKey(si.id), currTime + Delay(i.credit, i.bw), 0);
        }
        Settle(si, done);
        assert si.credit < 0 ==> si.Trace() == si.left + PutOff(i.dline, Delay(i.credit, i.bw));
      }
    }

    /** serve_sched. All credit is accounted for, the debt is at most one packet, and the events
        added lie in the future. `q` is what it adds to the queue of its caller, and `r` is its result
        when it is called without a queue. */
    method ServeSched(si: SchInst) returns (q: seq<Packet>, r: seq<Packet>, ghost wait: nat, ghost done: nat)
      requires Heap() && Ready(si.View(), si.id, evheap.contents, currTime)
      modifies evheap, evheap.p, evheap.cells, si
      ensures Heap() && (evheap.p == old(evheap.p) || fresh(evheap.p))
      ensures InstOk(si.View(), si.id, evheap.contents, currTime)
      ensures Later(old(evheap.contents), evheap.contents, si.id, currTime)
      ensures Left(old(si.left), si.left, q, currTime)
      ensures r == Result(wait, q) && |si.Trace()| == old(|si.Trace()|) + done
      ensures r == q <==> !Lost(old(si.dline) == [], si.delay, wait, done)
      ensures old(si.dline) != [] ==> q == []
      ensures Held(si.backlog, si.Trace()) == old(Held(si.backlog, si.Trace()))
      ensures Charged(old(si.View()), old(si.Trace()), si.View(), si.Trace(), hz, currTime)
      ensures Timed(old(si.Trace()), si.Trace(), currTime, si.delay, si.credit, KeyIn(evheap.contents, SchKey(si.id)))
      ensures wait > 0 ==> KeyIn(evheap.contents, SchKey(si.id)) == Some(currTime + wait)
      ensures si.active <==> wait > 0 || si.credit < 0
    {
      hide Bits, ViewsOf, LogsOf, H.Heap.Valid, Packets, Held, InstOk, Served, LineOk, Due, Later, KeyIn, Charged, Left, Sorted, Ready, Bounded, SchedOk, DebtOk, Grown, Lost, Timed;
      q := [];
      var idle := si.dline == [];
      ghost var heap := evheap.contents;
      var asked, count := ServeQueue(si);
      wait, done := asked, count;
      LostIff(old(si.dline), si.dline, done, currTime, si.delay, wait);
      if idle && count > 0 {
        ghost var mid := evheap.contents;
        ServedReleased(si.View(), si.left, si.id, heap, mid, currTime);
        ChargedLine(old(si.View()), old(si.Trace()), si.View(), si.Trace(), hz, currTime,
                    si.dline[Due(si.dline, currTime)..]);
        q := TransmitEvent(si);
        if si.dline != [] {
          KeySet(mid, LineKey(si.id), si.dline[0].out, SchKey(si.id));
        }
      } else {
        ServedStays(si.View(), si.id, evheap.contents, currTime);
        LeftNone(si.left, currTime);
      }
      r := if asked > 0 then [] else q;
    }

    /** What the handlers of the two kinds of events have in common. */
    ghost predicate Handled(vs: seq<Inst>, ls: seq<Log>, n: nat, heap: map<nat, int>, q: seq<Packet>)
      reads this, insts, evheap, evheap.p, evheap.cells
    {
      && n < |insts| == |vs| == |ls| && Ids() && Heap() && Views() == vs[n := insts[n].View()] && Logs() == ls[n := LogOf(insts[n], hz)]
      && InstOk(insts[n].View(), n, evheap.contents, currTime) && Later(heap, evheap.contents, n, currTime)
      && Proceeds(vs[n], ls[n], LogOf(insts[n], hz), currTime) && DebtOk(insts[n].View(), insts[n].Trace(), hz)
      && insts[n].bw == vs[n].bw && insts[n].delay == vs[n].delay && Left(ls[n].left, LogOf(insts[n], hz).left, q, currTime)
      && OnTime(Moment(vs[n], ls[n]), Now(insts[n], hz), currTime, KeyIn(evheap.contents, SchKey(n)))
    }

    method HandleInst(n: nat) returns (q: seq<Packet>)
      requires Ids() && Heap() && n < |insts| && Ready(insts[n].View(), n, evheap.contents, currTime)
      modifies evheap, evheap.p, evheap.cells, insts[n]
      ensures Handled(old(Views()), old(Logs()), n, old(evheap.contents), q) && (evheap.p == old(evheap.p) || fresh(evheap.p))
      ensures Timed(old(insts[n].Trace()), insts[n].Trace(), currTime, insts[n].delay, insts[n].credit, KeyIn(evheap.contents, SchKey(n)))
    {
      hide Bits, ViewsOf, LogsOf, Held, H.Heap.Valid, Packets, InstOk, Ready, Later, DebtOk, Charged, Left, Proceeds, Timed, OnTime, KeyIn;
      ghost var vs, ls := Views(), Logs();
      var si := insts[n];
      ghost var wait, done;
      var r;
      q, r, wait, done := ServeSched(si);
      ChargedLink(vs[n], ls[n].trace, si.View(), si.Trace(), hz, currTime);
      ChargedProceeds(vs[n], ls[n], si.View(), LogOf(si, hz), q, hz, currTime);
      OnTimeServed(Moment(vs[n], ls[n]), Now(si, hz), n, evheap.contents, currTime, hz, q);
    }

    method HandleLine(n: nat) returns (q: seq<Packet>)
      requires Ids() && Heap() && n < |insts| && Served(insts[n].View(), n, evheap.contents, currTime, true)
      requires DebtOk(insts[n].View(), insts[n].Trace(), hz)
      modifies evheap, evheap.p, evheap.cells, insts[n]
      ensures Handled(old(Views()), old(Logs()), n, old(evheap.contents), q) && (evheap.p == old(evheap.p) || fresh(evheap.p))
      ensures insts[n].Trace() == old(insts[n].Trace()) && insts[n].credit == old(insts[n].credit)
      ensures KeyIn(evheap.contents, SchKey(n)) == KeyIn(old(evheap.contents), SchKey(n))
    {
      hide OnTime, KeyIn, Bits, ViewsOf, LogsOf, Held, H.Heap.Valid, Packets, InstOk, Served, Later, DebtOk, Proceeds, Due, Sorted, Left;
      ghost var vs, ls, heap := Views(), Logs(), evheap.contents;
      LeftDue(insts[n].left, insts[n].dline, currTime);
      var si := insts[n];
      LineHandled(vs[n], ls[n], n, heap, currTime, hz);
      q := TransmitEvent(si);
      if si.dline != [] {
        KeySet(heap, LineKey(n), si.dline[0].out, SchKey(n));
      }
      assert LogOf(si, hz) == ls[n].(left := si.left);
      LeavesOf(ls[n].left, si.left, q, currTime);
      OnTimeSame(Moment(vs[n], ls[n]), Now(si, hz), n, evheap.contents, currTime);
    }

    /** An event that has been taken out of the heap: an instance or a delay line. */
    method Dispatch(o: nat, ghost heap: map<nat, int>) returns (q: seq<Packet>)
      requires Ids() && Heap() && AllOk(Views(), heap, currTime) && Debts()
      requires o in heap && heap[o] <= currTime && evheap.contents == heap - {o}
      modifies evheap, evheap.p, evheap.cells, insts
      ensures Sound() && (evheap.p == old(evheap.p) || fresh(evheap.p))
      ensures |DueSet(evheap.contents, currTime)| < |DueSet(heap, currTime)|
      ensures Only(old(Views()), old(Logs()), o / 2)
      ensures var x, y := old(Now(insts[o / 2], hz)), Now(insts[o / 2], hz);
              && Proceeds(x.i, x.log, y.log, currTime) && y.i.bw == x.i.bw && y.i.delay == x.i.delay
              && Left(x.log.left, y.log.left, q, currTime) && OnTime(x, y, currTime, KeyIn(evheap.contents, SchKey(o / 2)))
              && Stepped(x, y, o, heap, evheap.contents, currTime)
    {
      hide Bits, ViewsOf, LogsOf, LogOf, Held, H.Heap.Valid, InstOk, AllOk, OthersOk, Ready, Served, Later, DebtOk, Proceeds, DueSet, Left, OnTime,
           Stepped, Timed, KeyIn, SameBut;
      ghost var vs, n, gone := Views(), o / 2, heap - {o};
      InHeap(vs, heap, o, currTime);
      ghost var x := Now(insts[n], hz);
      PresentTrace(insts[n], hz);
      PopOthers(vs, heap, n, o, currTime);
      if o % 2 == 0 {
        PopInst(vs, heap, n, currTime);
        q := HandleInst(o / 2);
        PresentTrace(insts[n], hz);
        SteppedInst(x, Now(insts[n], hz), n, heap, evheap.contents, currTime);
      } else {
        PopLine(vs, heap, n, currTime);
        q := HandleLine(o / 2);
        PresentTrace(insts[n], hz);
        LaterSame(gone, evheap.contents, n, currTime);
        SteppedLine(x, Now(insts[n], hz), n, heap, evheap.contents, currTime);
      }
      LaterSame(gone, evheap.contents, n, currTime);
      OthersKept(vs, Views(), n, gone, evheap.contents, currTime);
      AllOkFrom(Views(), n, evheap.contents, currTime);
      FewerDue(heap, o, evheap.contents, n, currTime);
    }

    method Handle(o: nat, ghost heap: map<nat, int>, ghost a: seq<Log>) returns (q: seq<Packet>, ghost who: seq<nat>)
      requires Ids() && Heap() && AllOk(Views(), heap, currTime) && Debts() && PastOk(runs, Views(), Logs(), hz)
      requires AllLeft(Logs(), currTime) && AllTick(a, Views(), Logs(), heap, currTime)
      requires o in heap && heap[o] <= currTime && evheap.contents == heap - {o}
      modifies evheap, evheap.p, evheap.cells, insts, `runs
      ensures Valid() && (evheap.p == old(evheap.p) || fresh(evheap.p))
      ensures |DueSet(evheap.contents, currTime)| < |DueSet(heap, currTime)|
      ensures SameLinks(old(Views()), Views()) && AllProceed(old(Views()), old(Logs()), Logs(), currTime)
      ensures Merged(q, who, old(Logs()), Logs()) && RunsGrow(old(runs), runs)
      ensures AllTick(a, Views(), Logs(), evheap.contents, currTime)
    {
      hide Bits, ViewsOf, LogsOf, LogOf, Held, H.Heap.Valid, AllOk, DebtOk, Proceeds, DueSet, AllProceed, Left, Merged, PastOk, RunsGrow,
           AllTick, AllLeft, OnTime, Stepped, KeyIn;
      ghost var vs, ls, n := Views(), Logs(), o / 2;
      InHeap(vs, heap, o, currTime);
      q := Dispatch(o, heap);
      who := seq(|q|, _ => n);
      MergedOne(q, who, ls, Logs(), n, currTime);
      ProceedsOne(vs, ls, Logs(), n, currTime);
      TickStep(a, vs, ls, heap, Views(), Logs(), evheap.contents, o, currTime);
      TaskContinues(vs[n], ls[n], insts[n].View(), LogOf(insts[n], hz), currTime);
      Record(n, vs, ls);
    }

    /** The run of instance `n` grows by the present. */
    ghost method Record(n: nat, vs: seq<Inst>, ls: seq<Log>)
      requires PastOk(runs, vs, ls, hz) && AllLeft(ls, currTime) && Only(vs, ls, n) && Debts()
      requires Continued(Moment(vs[n], ls[n]), Now(insts[n], hz))
      requires OnTime(Moment(vs[n], ls[n]), Now(insts[n], hz), currTime, KeyIn(evheap.contents, SchKey(n)))
      modifies `runs
      ensures PastOk(runs, Views(), Logs(), hz) && AllLeft(Logs(), currTime) && RunAppends(old(runs), runs, n, Now(insts[n], hz))
      ensures RunsGrow(old(runs), runs)
    {
      hide Bits, ViewsOf, LogsOf, LogOf, Held, DebtOk, Stretch, Continued, Moment.Ok, PastOk, AllLeft, OnTime, KeyIn;
      StretchOf(runs, vs, ls, n, hz);
      NowOk(insts[n], hz);
      RunPaced(runs[n], Now(insts[n], hz), hz, currTime, KeyIn(evheap.contents, SchKey(n)));
      OnTimeLeaves(Moment(vs[n], ls[n]), Now(insts[n], hz), currTime, KeyIn(evheap.contents, SchKey(n)));
      AllLeftOne(ls, Logs(), n, currTime);
      PastOne(runs, vs, ls, Views(), Logs(), n, runs[n] + [Now(insts[n], hz)], hz);
      runs := runs[n := runs[n] + [Now(insts[n], hz)]];
    }

    /** One due event. */
    method Step(ghost a: seq<Log>) returns (q: seq<Packet>, ghost who: seq<nat>)
      requires Valid() && evheap.elements > 0 && evheap.Top().key <= currTime
      requires AllTick(a, Views(), Logs(), evheap.contents, currTime)
      modifies evheap, evheap.p, evheap.cells, insts, `runs
      ensures Valid() && (evheap.p == old(evheap.p) || fresh(evheap.p))
      ensures |DueSet(evheap.contents, currTime)| < |DueSet(old(evheap.contents), currTime)|
      ensures SameLinks(old(Views()), Views()) && AllProceed(old(Views()), old(Logs()), Logs(), currTime)
      ensures Merged(q, who, old(Logs()), Logs()) && RunsGrow(old(runs), runs)
      ensures AllTick(a, Views(), Logs(), evheap.contents, currTime)
    {
      hide Bits, ViewsOf, LogsOf, LogOf, H.Heap.Sound, InstOk, AllOk, DebtOk, Proceeds, DueSet, AllProceed, Merged, PastOk, RunsGrow, AllTick, AllLeft;
      var o := evheap.Top().obj;
      ghost var heap := evheap.contents;
      evheap.Extract(None);
      q, who := Handle(o, heap, a);
    }

    /** What the event loop has done so far in a tick that found the instances as `vs`, `ls` and `rs` show. */
    ghost predicate Underway(vs: seq<Inst>, ls: seq<Log>, rs: seq<seq<Moment>>, q: seq<Packet>, who: seq<nat>)
      reads this, insts, evheap
    {
      && SameLinks(vs, Views()) && AllProceed(vs, ls, Logs(), currTime) && Merged(q, who, ls, Logs()) && RunsGrow(rs, runs)
      && AllTick(ls, Views(), Logs(), evheap.contents, currTime)
    }

    /** One round of the event loop. */
    method Round(q: seq<Packet>, ghost who: seq<nat>, ghost vs: seq<Inst>, ghost ls: seq<Log>, ghost rs: seq<seq<Moment>>)
      returns (q': seq<Packet>, ghost who': seq<nat>)
      requires Valid() && evheap.elements > 0 && evheap.Top().key <= currTime && Underway(vs, ls, rs, q, who)
      modifies evheap, evheap.p, evheap.cells, insts, `runs
      ensures Valid() && (evheap.p == old(evheap.p) || fresh(evheap.p))
      ensures |DueSet(evheap.contents, currTime)| < |DueSet(old(evheap.contents), currTime)|
      ensures Underway(vs, ls, rs, q', who')
    {
      hide Bits, ViewsOf, LogsOf, LogOf, H.Heap.Valid, H.Heap.Sound, InstOk, AllOk, DebtOk, Proceeds, DueSet, AllProceed, Merged, PastOk, AllTick, AllLeft;
      ghost var us, ms := Views(), Logs();
      var more;
      ghost var their;
      more, their := Step(ls);
      MergedTrans(q, who, more, their, ls, ms, Logs());
      q', who' := q + more, who + their;
      ProceedsLinks(vs, us, ms, Logs(), currTime);
      ProceedsTrans(vs, ls, ms, Logs(), currTime);
    }

    /** The loop of dummynet_task; `advance` is by how much the tick moves the clock. The loop ends
        because every handler adds events in the future only. Afterwards no event and no packet is due,
        and `q` is exactly what has left the delay lines, all of it due and that of each line, of which
        `who` has the number, in order. */
    method Task(advance: nat) returns (q: seq<Packet>, ghost who: seq<nat>)
      requires Valid()
      modifies `currTime, evheap, evheap.p, evheap.cells, insts, `runs
      ensures Valid() && (evheap.p == old(evheap.p) || fresh(evheap.p)) && currTime == old(currTime) + advance
      ensures forall o :: o in evheap.contents ==> evheap.contents[o] > currTime
      ensures forall n :: 0 <= n < |insts| ==> forall k :: 0 <= k < |insts[n].dline| ==> insts[n].dline[k].out > currTime
      ensures AllProceed(old(Views()), old(Logs()), Logs(), currTime) && Merged(q, who, old(Logs()), Logs())
      ensures RunsGrow(old(runs), runs) && AllTick(old(Logs()), Views(), Logs(), evheap.contents, currTime)
    {
      hide Bits, ViewsOf, LogsOf, LogOf, Held, H.Heap.Valid, InstOk, AllOk, DebtOk, Proceeds, DueSet, AllProceed, Merged, PastOk, AllTick, AllLeft;
      q, who := [], [];
      AdvanceOk(Views(), evheap.contents, currTime, currTime + advance);
      AllLeftLater(Logs(), currTime, currTime + advance);
      currTime := currTime + advance;
      ghost var vs, ls, rs := Views(), Logs(), runs;
      TickStart(vs, ls, evheap.contents, currTime);
      ProceedsNone(vs, ls, currTime);
      MergedNone(ls);
      while true
        invariant Valid() && (evheap.p == old(evheap.p) || fresh(evheap.p)) && Underway(vs, ls, rs, q, who)
        decreases |DueSet(evheap.contents, currTime)|
        modifies evheap, evheap.p, evheap.cells, insts, `runs
      {
        evheap.Emptiness();
        if evheap.elements == 0 || currTime < evheap.Top().key {
          break;
        }
        q, who := Round(q, who, vs, ls, rs);
      }
      NoneDue(evheap.contents, currTime);
      NothingDue(Views(), evheap.contents, currTime);
    }

    /** The allowance of dummynet_io, and the packet through scheduler and delay line. */
    method Pass(n: nat, fast: bool, m: Packet) returns (ghost gone: seq<Packet>, r: seq<Packet>, ghost wait: nat, ghost done: nat)
      requires Ids() && Heap() && n < |insts| && InstOk(insts[n].View(), n, evheap.contents, currTime)
      requires !insts[n].active && insts[n].backlog == []
      modifies evheap, evheap.p, evheap.cells, insts[n]
      ensures Heap() && (evheap.p == old(evheap.p) || fresh(evheap.p))
      ensures InstOk(insts[n].View(), n, evheap.contents, currTime) && SameBut(old(evheap.contents), evheap.contents, n)
      ensures Charged(Woken(old(insts[n].View()), m, currTime, fast), old(insts[n].Trace()),
                      insts[n].View(), insts[n].Trace(), hz, currTime)
      ensures Held(insts[n].backlog, insts[n].Trace()) == Held([m], old(insts[n].Trace()))
      ensures Left(old(insts[n].left), insts[n].left, gone, currTime) && (old(insts[n].dline) != [] ==> gone == [])
      ensures r == Result(wait, gone) && |insts[n].Trace()| == old(|insts[n].Trace()|) + done
      ensures r == gone <==> !Lost(old(insts[n].dline) == [], insts[n].delay, wait, done)
      ensures Timed(old(insts[n].Trace()), insts[n].Trace(), currTime, insts[n].delay, insts[n].credit, KeyIn(evheap.contents, SchKey(n)))
    {
      hide Bits, H.Heap.Valid, Held, InstOk, Ready, Later, Charged, Left, Allowance, Lost, Timed, KeyIn;
      var si := insts[n];
      WokenReady(si.View(), n, evheap.contents, m, currTime, fast);
      si.backlog := si.backlog + [m];
      assert si.backlog == [m];
      if si.idleTime < currTime {
        si.schedTime := currTime;
        si.credit := Allowance(si.bw, si.burst, currTime - si.idleTime, fast);
      }
      ghost var heap := evheap.contents;
      gone, r, wait, done := ServeSched(si);
      LaterSame(heap, evheap.contents, n, currTime);
    }

    method WakeUp(n: nat, fast: bool, m: Packet) returns (ghost gone: seq<Packet>, r: seq<Packet>, ghost wait: nat, ghost done: nat)
      requires Ids() && Heap() && n < |insts| && InstOk(insts[n].View(), n, evheap.contents, currTime)
      requires !insts[n].active && insts[n].backlog == []
      modifies evheap, evheap.p, evheap.cells, insts[n]
      ensures Heap() && (evheap.p == old(evheap.p) || fresh(evheap.p))
      ensures InstOk(insts[n].View(), n, evheap.contents, currTime) && SameBut(old(evheap.contents), evheap.contents, n)
      ensures DebtOk(insts[n].View(), insts[n].Trace(), hz)
      ensures var x, y := old(Now(insts[n], hz)), Now(insts[n], hz);
              && Awoken(x, y, m, currTime, fast, hz) && Passed(x, y, gone, r, wait, done, currTime) && (gone == [] || gone == [m])
              && Timed(x.log.trace, y.log.trace, currTime, y.i.delay, y.i.credit, KeyIn(evheap.contents, SchKey(n)))
    {
      hide Bits, H.Heap.Valid, Held, InstOk, Charged, Left, Lost, Awoken, Passed, DebtOk, SameBut, Result, Timed, KeyIn;
      var si := insts[n];
      ghost var x := Now(si, hz);
      gone, r, wait, done := Pass(n, fast, m);
      ChargedDebt(Woken(x.i, m, currTime, fast), x.log.trace, si.View(), si.Trace(), hz, currTime);
      ReleasedOne(x, si, gone, m, currTime, hz);
      AwokenNow(x, si, m, currTime, fast, hz);
      PassedNow(x, si, gone, r, wait, done, currTime, hz);
    }

    method QueueUp(n: nat, m: Packet)
      requires Sound() && n < |insts| && insts[n].active
      modifies insts[n]
      ensures Sound() && Only(old(Views()), old(Logs()), n) && Joined(old(Now(insts[n], hz)), Now(insts[n], hz), m)
    {
      hide Bits, ViewsOf, LogsOf, Held, H.Heap.Valid, InstOk, AllOk, OthersOk, DebtOk;
      var si := insts[n];
      ghost var vs, heap := Views(), evheap.contents;
      InstOf(vs, n, heap, currTime);
      si.backlog := si.backlog + [m];
      SameHeap(heap, n);
      QueuedOk(vs[n], n, heap, m, currTime);
      DebtQueued(vs[n], si.Trace(), hz, si.backlog);
      OthersKept(vs, Views(), n, heap, heap, currTime);
      AllOkFrom(Views(), n, heap, currTime);
    }

    /** A packet for an active instance waits. */
    method Join(n: nat, m: Packet)
      requires Valid() && n < |insts| && insts[n].active
      modifies insts[n], `runs
      ensures Valid() && Only(old(Views()), old(Logs()), n) && Joined(old(Now(insts[n], hz)), Now(insts[n], hz), m)
      ensures RunAppends(old(runs), runs, n, Now(insts[n], hz))
    {
      hide Bits, ViewsOf, LogsOf, Held, H.Heap.Valid, AllOk, DebtOk, PastOk, LogOf, Continued, RunsGrow, Joined, Moment.Ok, AllLeft, OnTime, KeyIn, InstOk, OthersOk;
      ghost var vs, ls, x := Views(), Logs(), Now(insts[n], hz);
      NowOk(insts[n], hz);
      QueueUp(n, m);
      NowOk(insts[n], hz);
      InstOf(Views(), n, evheap.contents, currTime);
      JoinContinues(x, Now(insts[n], hz), m, hz);
      JoinOnTime(x, Now(insts[n], hz), m, n, evheap.contents, currTime);
      Record(n, vs, ls);
    }

    /** The run of instance `n` starts again from its wake-up. */
    ghost method Restart(n: nat, vs: seq<Inst>, ls: seq<Log>, x: Moment)
      requires PastOk(runs, vs, ls, hz) && AllLeft(ls, currTime) && Only(vs, ls, n) && Debts()
      requires x.Ok(hz) && Continued(x, Now(insts[n], hz)) && x.log.left == ls[n].left
      requires OnTime(x, Now(insts[n], hz), currTime, KeyIn(evheap.contents, SchKey(n)))
      modifies `runs
      ensures PastOk(runs, Views(), Logs(), hz) && AllLeft(Logs(), currTime) && RunRestarts(old(runs), runs, n, x, Now(insts[n], hz))
    {
      hide Bits, ViewsOf, LogsOf, LogOf, Held, DebtOk, Continued, Moment.Ok, AllLeft, OnTime, KeyIn, Paced, PastOk;
      NowOk(insts[n], hz);
      StretchOf(runs, vs, ls, n, hz);
      PacedNone(x, hz);
      RunPaced([x], Now(insts[n], hz), hz, currTime, KeyIn(evheap.contents, SchKey(n)));
      OnTimeLeaves(x, Now(insts[n], hz), currTime, KeyIn(evheap.contents, SchKey(n)));
      AllLeftOne(ls, Logs(), n, currTime);
      assert [x] + [Now(insts[n], hz)] == [x, Now(insts[n], hz)];
      PastOne(runs, vs, ls, Views(), Logs(), n, [x, Now(insts[n], hz)], hz);
      runs := runs[n := [x, Now(insts[n], hz)]];
    }

    method Rouse(n: nat, m: Packet, fast: bool) returns (ghost gone: seq<Packet>, r: seq<Packet>, ghost wait: nat, ghost done: nat)
      requires Sound() && n < |insts| && !insts[n].active
      modifies evheap, evheap.p, evheap.cells, insts[n]
      ensures Sound() && (evheap.p == old(evheap.p) || fresh(evheap.p)) && Only(old(Views()), old(Logs()), n)
      ensures var x, y := old(Now(insts[n], hz)), Now(insts[n], hz);
              && Awoken(x, y, m, currTime, fast, hz) && Passed(x, y, gone, r, wait, done, currTime) && (gone == [] || gone == [m])
              && Timed(x.log.trace, y.log.trace, currTime, y.i.delay, y.i.credit, KeyIn(evheap.contents, SchKey(n)))
    {
      hide Bits, ViewsOf, LogsOf, LogOf, Held, H.Heap.Valid, InstOk, AllOk, OthersOk, DebtOk, SameBut, Awoken, Passed, Timed, KeyIn;
      ghost var vs, heap := Views(), evheap.contents;
      InstOf(vs, n, heap, currTime);
      gone, r, wait, done := WakeUp(n, fast, m);
      OthersKept(vs, Views(), n, heap, evheap.contents, currTime);
      AllOkFrom(Views(), n, evheap.contents, currTime);
    }

    /** A packet for an idle instance wakes it up. `gone` is what leaves the delay line, which is no more than
        this packet, and `r` is what dummynet_io is given of it. */
    method Awaken(n: nat, m: Packet, fast: bool) returns (ghost gone: seq<Packet>, r: seq<Packet>, ghost wait: nat, ghost done: nat)
      requires Valid() && n < |insts| && !insts[n].active
      modifies evheap, evheap.p, evheap.cells, insts[n], `runs
      ensures Valid() && (evheap.p == old(evheap.p) || fresh(evheap.p)) && Only(old(Views()), old(Logs()), n)
      ensures var x, y := old(Now(insts[n], hz)), Now(insts[n], hz);
              && Awoken(x, y, m, currTime, fast, hz) && Passed(x, y, gone, r, wait, done, currTime) && (gone == [] || gone == [m])
              && RunRestarts(old(runs), runs, n, WokenMoment(x, m, currTime, fast, hz), y)
              && Timed(x.log.trace, y.log.trace, currTime, y.i.delay, y.i.credit, KeyIn(evheap.contents, SchKey(n)))
    {
      hide Bits, ViewsOf, LogsOf, Held, H.Heap.Valid, AllOk, DebtOk, Awoken, Passed, LogOf, PastOk, Continued, Moment.Ok, Timed, KeyIn, OnTime, AllLeft, InstOk, OthersOk,
           WokenMoment;
      ghost var vs, ls, x := Views(), Logs(), Now(insts[n], hz);
      InstOf(vs, n, evheap.contents, currTime);
      gone, r, wait, done := Rouse(n, m, fast);
      NowOk(insts[n], hz);
      ghost var y := Now(insts[n], hz);
      InstOf(Views(), n, evheap.contents, currTime);
      WokenContinues(x, y, m, currTime, fast, hz);
      WokenOnTime(x, y, m, currTime, fast, hz, n, evheap.contents, gone, r, wait, done);
      Restart(n, vs, ls, WokenMoment(x, m, currTime, fast, hz));
    }

    /** The part of dummynet_io that gives a packet to an instance; `drop` is the verdict of the
        scheduler's enqueue. An active instance is left to the event loop. What leaves the delay line at once
        is at most this packet, `gone`; `r` is what dummynet_io passes on, and the packet is lost exactly
        if the line was idle and without delay and the scheduler has asked to be called later. */
    method Io(n: nat, m: Packet, fast: bool, drop: bool)
      returns (r: seq<Packet>, ghost gone: seq<Packet>, ghost wait: nat, ghost done: nat)
      requires Valid() && n < |insts|
      modifies evheap, evheap.p, evheap.cells, insts[n], `runs
      ensures Valid() && (evheap.p == old(evheap.p) || fresh(evheap.p)) && Only(old(Views()), old(Logs()), n)
      ensures var x, y := old(Now(insts[n], hz)), Now(insts[n], hz);
              && Passed(x, y, gone, r, wait, done, currTime) && (gone == [] || gone == [m])
              && if drop then
                   y == x && runs == old(runs) && evheap.contents == old(evheap.contents) && gone == []
                 else if x.i.active then
                   Joined(x, y, m) && RunAppends(old(runs), runs, n, y) && evheap.contents == old(evheap.contents) && gone == []
                 else
                   Awoken(x, y, m, currTime, fast, hz) && RunRestarts(old(runs), runs, n, WokenMoment(x, m, currTime, fast, hz), y)
      ensures var x, y := old(Now(insts[n], hz)), Now(insts[n], hz);
              Timed(x.log.trace, y.log.trace, currTime, y.i.delay, y.i.credit, KeyIn(evheap.contents, SchKey(n)))
    {
      hide Bits, ViewsOf, LogsOf, Held, H.Heap.Valid, AllOk, DebtOk, Awoken, Passed, LogOf, PastOk, WokenMoment, AllLeft, Timed, KeyIn;
      r, gone, wait, done := [], [], 0, 0;
      ghost var x := Now(insts[n], hz);
      PassedNone(x, x, currTime);
      TimedNone(x.log.trace, currTime, x.i.delay, x.i.credit, KeyIn(evheap.contents, SchKey(n)));
      if drop {
        return;
      }
      if insts[n].active {
        Join(n, m);
        PassedNone(x, Now(insts[n], hz), currTime);
      } else {
        gone, r, wait, done := Awaken(n, m, fast);
      }
    }

    /** A new instance on a link. */
    method NewInst(bw: nat, delay: nat, burst: nat, fast: bool) returns (n: nat)
      requires Valid()
      modifies `insts, `runs
      ensures Valid() && n == |old(insts)| && |insts| == n + 1 && fresh(insts[n]) && insts[..n] == old(insts)
      ensures insts[n].View() == Fresh(bw, delay, burst, currTime, fast) && insts[n].left == []
      ensures runs == old(runs) + [[Now(insts[n], hz)]]
    {
      hide H.Heap.Valid, AllOk, DebtOk, PastOk, LogOf, Bits, Moment.Ok, AllLeft;
      n := |insts|;
      var si := new SchInst(n, bw, delay, burst, currTime, fast);
      Admit(si);
    }

    ghost method Enlist(si: SchInst, vs: seq<Inst>, ls: seq<Log>)
      requires PastOk(runs, vs, ls, hz) && Views() == vs + [si.View()] && Logs() == ls + [LogOf(si, hz)]
      requires DebtOk(si.View(), si.Trace(), hz) && AllLeft(ls, currTime) && si.left == []
      modifies `runs
      ensures PastOk(runs, Views(), Logs(), hz) && AllLeft(Logs(), currTime) && runs == old(runs) + [[Now(si, hz)]]
    {
      hide PastOk, Moment.Ok, AllLeft;
      AllLeftNew(ls, LogOf(si, hz), currTime);
      NowOk(si, hz);
      PastNew(runs, vs, ls, Now(si, hz), hz);
      runs := runs + [[Now(si, hz)]];
    }

    method Admit(si: SchInst)
      requires Valid() && si !in insts && si.id == |insts|
      requires si.credit >= 0 && si.schedTime == 0 && !si.active && si.backlog == [] && si.dline == [] && si.left == []
      modifies `insts, `runs
      ensures Valid() && insts == old(insts) + [si] && runs == old(runs) + [[Now(si, hz)]]
    {
      hide H.Heap.Valid, AllOk, DebtOk, PastOk, LogOf, Bits, Moment.Ok, AllLeft;
      ghost var vs, ls := Views(), Logs();
      insts := insts + [si];
      NewInstOk(vs, evheap.contents, currTime, si.View());
      NoDebt(si.View(), si.Trace(), hz);
      assert Views() == vs + [si.View()];
      assert Logs() == ls + [LogOf(si, hz)];
      Enlist(si, vs, ls);
    }
  }
}
