/** Deficit round robin as in sys/netinet/ipfw/dn_sched_rr.c, on values: what each operation makes of
  the ring of queues, and the fairness of any run of operations. `Q` identifies a queue. */
module DrrSpec {
  import opened Basics
  import opened PacketQueue

  /** A queue. `passes` and `sent` count, since it joined the ring, how often it was passed over for
      another quantum and how many bytes it has sent. */
  datatype Flow = Flow(mq: seq<Packet>, credit: int, quantum: nat, passes: nat, sent: nat)

  /** The ring from its head; `lmax` is the longest packet seen. */
  datatype State<Q> = State(ring: seq<Q>, flows: map<Q, Flow>, lmax: nat)

  ghost predicate FlowOk(f: Flow, inRing: bool, lmax: nat)
  {
    && f.quantum > 0
    && (forall k :: 0 <= k < |f.mq| ==> f.mq[k].len <= lmax)
    && (f.mq != [] ==> inRing)
    && (inRing ==> f.credit == f.quantum * (1 + f.passes) - f.sent && 0 <= f.credit < f.quantum + lmax)
  }

  ghost predicate FlowsOk<Q>(s: State<Q>)
  {
    forall q :: q in s.flows ==> FlowOk(s.flows[q], q in s.ring, s.lmax)
  }

  ghost predicate Ok<Q>(s: State<Q>)
  {
    Distinct(s.ring) && (forall q :: q in s.ring ==> q in s.flows) && s.lmax > 0 && FlowsOk(s)
  }

  // ---------------------------------------------------------------- steps

  /** rr_append */
  ghost function Append<Q>(s: State<Q>, q: Q): State<Q>
    requires q in s.flows
  {
    s.(ring := s.ring + [q], flows := s.flows[q := s.flows[q].(credit := s.flows[q].quantum, passes := 0, sent := 0)])
  }

  /** rr_enqueue */
  ghost function Arrive<Q>(s: State<Q>, q: Q, m: Packet): State<Q>
    requires q in s.flows
  {
    var f := s.flows[q];
    var t := s.(flows := s.flows[q := f.(mq := f.mq + [m])], lmax := if m.len > s.lmax then m.len else s.lmax);
    if q in s.ring then t else Append(t, q)
  }

  ghost function Longest(mq: seq<Packet>, lmax: nat): (r: nat)
    ensures r >= lmax && forall k :: 0 <= k < |mq| ==> mq[k].len <= r
  {
    if mq == [] then lmax else Longest(mq[1..], if mq[0].len > lmax then mq[0].len else lmax)
  }

  /** rr_new_queue, for a queue that may already hold packets. */
  ghost function New<Q>(s: State<Q>, q: Q, quantum: nat, mq: seq<Packet>): State<Q>
  {
    var t := s.(flows := s.flows[q := Flow(mq, quantum, quantum, 0, 0)], lmax := Longest(mq, s.lmax));
    if mq == [] then t else Append(t, q)
  }

  /** A new queue has the quantum asked for and a full credit, and is in the ring if it holds packets. */
  lemma NewIs<Q>(s: State<Q>, q: Q, quantum: nat, mq: seq<Packet>)
    requires q !in s.ring
    ensures var t := New(s, q, quantum, mq);
            t.flows == s.flows[q := Flow(mq, quantum, quantum, 0, 0)] && (q in t.ring <==> mq != [])
  {
  }

  ghost function Without<Q>(ring: seq<Q>, q: Q): seq<Q>
  {
    if ring == [] then []
    else if ring[0] == q then ring[1..]
    else [ring[0]] + Without(ring[1..], q)
  }

  lemma {:induction false} NotWithout<Q>(ring: seq<Q>, q: Q)
    ensures q !in ring ==> Without(ring, q) == ring
    ensures ring != [] && ring[0] == q ==> Without(ring, q) == ring[1..]
  {
    if ring != [] {
      NotWithout(ring[1..], q);
      assert ring == [ring[0]] + ring[1..];
    }
  }

  lemma {:induction false} WithoutAt<Q>(ring: seq<Q>, q: Q, n: nat)
    requires Distinct(ring) && n < |ring| && ring[n] == q
    ensures Without(ring, q) == ring[..n] + ring[n + 1..]
  {
    if n > 0 {
      NotInTail(ring);
      WithoutAt(ring[1..], q, n - 1);
    }
  }

  /** rr_free_queue */
  ghost function Free<Q>(s: State<Q>, q: Q): State<Q>
  {
    s.(ring := Without(s.ring, q), flows := s.flows - {q})
  }

  ghost predicate Running<Q>(s: State<Q>)
  {
    Ok(s) && s.ring != []
  }

  /** The head queue is empty and leaves the ring. */
  ghost function Expire<Q>(s: State<Q>): State<Q>
    requires s.ring != []
  {
    s.(ring := s.ring[1..])
  }

  /** The head packet is too long: the queue gets a quantum and the ring turns. */
  ghost function Pass<Q>(s: State<Q>): State<Q>
    requires s.ring != [] && s.ring[0] in s.flows
  {
    var f := s.flows[s.ring[0]];
    s.(ring := s.ring[1..] + [s.ring[0]], flows := s.flows[s.ring[0] := f.(credit := f.credit + f.quantum, passes := f.passes + 1)])
  }

  /** The head packet is sent. */
  ghost function Send<Q>(s: State<Q>): State<Q>
    requires s.ring != [] && s.ring[0] in s.flows && s.flows[s.ring[0]].mq != []
  {
    var f := s.flows[s.ring[0]];
    var len := f.mq[0].len;
    s.(flows := s.flows[s.ring[0] := f.(mq := f.mq[1..], credit := f.credit - len, sent := f.sent + len)])
  }

  lemma NotInTail<Q>(ring: seq<Q>)
    requires Distinct(ring) && ring != []
    ensures Distinct(ring[1..]) && ring[0] !in ring[1..] && forall q :: q in ring <==> q == ring[0] || q in ring[1..]
  {
    assert ring == [ring[0]] + ring[1..];
  }

  lemma ExpireOk<Q>(s: State<Q>)
    requires Running(s) && s.flows[s.ring[0]].mq == []
    ensures Ok(Expire(s))
  {
    hide FlowOk;
    NotInTail(s.ring);
    var t := Expire(s);
    forall q | q in t.flows
      ensures FlowOk(t.flows[q], q in t.ring, t.lmax)
    {
      assert FlowOk(s.flows[q], q in s.ring, s.lmax);
      if q == s.ring[0] {
        LeavesRing(s.flows[q], s.lmax);
      }
    }
  }

  lemma LeavesRing(f: Flow, lmax: nat)
    requires FlowOk(f, true, lmax) && f.mq == []
    ensures FlowOk(f, false, lmax)
  {
  }

  lemma PassOk<Q>(s: State<Q>)
    requires Running(s) && s.flows[s.ring[0]].mq != [] && s.flows[s.ring[0]].mq[0].len > s.flows[s.ring[0]].credit
    ensures Ok(Pass(s))
  {
    hide FlowOk;
    NotInTail(s.ring);
    var t := Pass(s);
    forall q | q in t.flows
      ensures FlowOk(t.flows[q], q in t.ring, t.lmax)
    {
      assert FlowOk(s.flows[q], q in s.ring, s.lmax);
      if q == s.ring[0] {
        PassedFlow(s.flows[q], s.lmax);
      }
    }
  }

  lemma PassedFlow(f: Flow, lmax: nat)
    requires FlowOk(f, true, lmax) && f.mq != [] && f.mq[0].len > f.credit
    ensures FlowOk(f.(credit := f.credit + f.quantum, passes := f.passes + 1), true, lmax)
  {
  }

  lemma SendOk<Q>(s: State<Q>)
    requires Running(s) && s.flows[s.ring[0]].mq != [] && s.flows[s.ring[0]].mq[0].len <= s.flows[s.ring[0]].credit
    ensures Ok(Send(s))
  {
    hide FlowOk;
    var t := Send(s);
    forall q | q in t.flows
      ensures FlowOk(t.flows[q], q in t.ring, t.lmax)
    {
      assert FlowOk(s.flows[q], q in s.ring, s.lmax);
      if q == s.ring[0] {
        SentFlow(s.flows[q], s.lmax);
      }
    }
  }

  lemma SentFlow(f: Flow, lmax: nat)
    requires FlowOk(f, true, lmax) && f.mq != [] && f.mq[0].len <= f.credit
    ensures FlowOk(f.(mq := f.mq[1..], credit := f.credit - f.mq[0].len, sent := f.sent + f.mq[0].len), true, lmax)
  {
  }

  // ---------------------------------------------------------------- rr_dequeue

  /** By how much the credit of a queue falls short of its first packet. */
  ghost function Short(f: Flow): nat
  {
    if f.mq == [] || f.mq[0].len <= f.credit then 0 else f.mq[0].len - f.credit
  }

  ghost function Deficit<Q>(ring: seq<Q>, flows: map<Q, Flow>): nat
    requires forall q :: q in ring ==> q in flows
  {
    if ring == [] then 0 else Short(flows[ring[0]]) + Deficit(ring[1..], flows)
  }

  lemma {:induction false} DeficitAppend<Q>(a: seq<Q>, q: Q, flows: map<Q, Flow>)
    requires q in flows && forall p :: p in a ==> p in flows
    ensures Deficit(a + [q], flows) == Deficit(a, flows) + Short(flows[q])
  {
    if a == [] {
      assert a + [q] == [q];
    } else {
      DeficitAppend(a[1..], q, flows);
      assert (a + [q])[1..] == a[1..] + [q];
    }
  }

  lemma {:induction false} DeficitSame<Q>(a: seq<Q>, q: Q, f: Flow, flows: map<Q, Flow>)
    requires q !in a && forall p :: p in a ==> p in flows
    ensures Deficit(a, flows[q := f]) == Deficit(a, flows)
  {
    if a != [] {
      DeficitSame(a[1..], q, f, flows);
    }
  }

  /** What makes the loop of rr_dequeue end. */
  ghost function Measure<Q>(s: State<Q>): nat
    requires forall q :: q in s.ring ==> q in s.flows
  {
    Deficit(s.ring, s.flows) + |s.ring|
  }

  lemma ExpireMeasure<Q>(s: State<Q>)
    requires Running(s)
    ensures (forall q :: q in Expire(s).ring ==> q in s.flows) && Measure(Expire(s)) < Measure(s)
  {
  }

  lemma PassMeasure<Q>(s: State<Q>)
    requires Running(s) && s.flows[s.ring[0]].mq != [] && s.flows[s.ring[0]].mq[0].len > s.flows[s.ring[0]].credit
    ensures (forall q :: q in Pass(s).ring ==> q in Pass(s).flows) && Measure(Pass(s)) < Measure(s)
  {
    NotInTail(s.ring);
    var q, t := s.ring[0], Pass(s);
    DeficitAppend(s.ring[1..], q, t.flows);
    DeficitSame(s.ring[1..], q, t.flows[q], s.flows);
    assert FlowOk(s.flows[q], true, s.lmax);
  }

  /** The state and the packet that rr_dequeue ends with. */
  ghost function Dequeue<Q>(s: State<Q>): (r: (State<Q>, Option<Packet>))
    requires Ok(s)
    ensures Ok(r.0)
    decreases Measure(s)
  {
    if s.ring == [] then (s, None) else
      var f := s.flows[s.ring[0]];
      if f.mq == [] then
        ExpireOk(s);
        ExpireMeasure(s);
        Dequeue(Expire(s))
      else if f.mq[0].len > f.credit then
        PassOk(s);
        PassMeasure(s);
        Dequeue(Pass(s))
      else
        SendOk(s);
        (Send(s), Some(f.mq[0]))
  }

  ghost predicate Idle<Q>(s: State<Q>)
  {
    forall q :: q in s.flows ==> s.flows[q].mq == []
  }

  /** Nothing is returned exactly when nothing is queued; otherwise the head of one queue, which is
      then the head of the ring and is charged for it, and no other queue loses or sends anything. */
  lemma {:induction false} DequeueServes<Q>(s: State<Q>)
    requires Ok(s)
    ensures var (t, m) := Dequeue(s);
            && (m == None <==> Idle(s))
            && (m == None ==> t.ring == [])
            && t.flows.Keys == s.flows.Keys && t.lmax == s.lmax
            && (forall q :: q in t.ring ==> q in s.ring)
            && (m != None ==> t.ring != [] && t.ring[0] in s.flows && s.flows[t.ring[0]].mq == [m.value] + t.flows[t.ring[0]].mq)
            && (forall q :: q in s.flows && (m == None || q != t.ring[0]) ==> t.flows[q].mq == s.flows[q].mq)
            && (forall q :: q in s.flows && (m == None || q != t.ring[0]) ==> t.flows[q].sent == s.flows[q].sent)
            && (m != None ==> t.flows[t.ring[0]].sent == s.flows[t.ring[0]].sent + m.value.len)
    decreases Measure(s)
  {
    hide FlowOk;
    if s.ring == [] {
      forall q | q in s.flows
        ensures s.flows[q].mq == []
      {
        OutOfRing(s, q);
      }
    } else {
      var f := s.flows[s.ring[0]];
      if f.mq == [] {
        ExpireOk(s);
        ExpireMeasure(s);
        DequeueServes(Expire(s));
      } else if f.mq[0].len > f.credit {
        PassOk(s);
        PassMeasure(s);
        DequeueServes(Pass(s));
        assert !Idle(s);
        assert Pass(s).flows[s.ring[0]].mq != [];
      } else {
        SendOk(s);
        assert f.mq == [f.mq[0]] + f.mq[1..];
      }
    }
  }

  lemma NothingIffIdle<Q>(s: State<Q>)
    requires Ok(s)
    ensures Dequeue(s).1 == None <==> Idle(s)
  {
    hide Ok, Dequeue, Idle;
    DequeueServes(s);
  }

  lemma Backlogged<Q>(s: State<Q>, q: Q)
    requires Ok(s) && q in s.flows
    ensures s.flows[q].mq != [] ==> q in s.ring
  {
    assert FlowOk(s.flows[q], q in s.ring, s.lmax);
  }

  lemma OutOfRing<Q>(s: State<Q>, q: Q)
    requires Ok(s) && q in s.flows && q !in s.ring
    ensures s.flows[q].mq == []
  {
    assert FlowOk(s.flows[q], q in s.ring, s.lmax);
  }

  // ---------------------------------------------------------------- order

  /** What has arrived for a queue is what it has sent, followed by what it holds. */
  ghost predicate Fifo<Q>(arrived: map<Q, seq<Packet>>, served: map<Q, seq<Packet>>, s: State<Q>)
  {
    arrived.Keys == served.Keys == s.flows.Keys && forall q :: q in s.flows ==> arrived[q] == served[q] + s.flows[q].mq
  }

  lemma FifoArrive<Q>(arrived: map<Q, seq<Packet>>, served: map<Q, seq<Packet>>, s: State<Q>, q: Q, m: Packet)
    requires Fifo(arrived, served, s) && q in s.flows
    ensures Fifo(arrived[q := arrived[q] + [m]], served, Arrive(s, q, m))
  {
    assert served[q] + (s.flows[q].mq + [m]) == served[q] + s.flows[q].mq + [m];
  }

  lemma FifoDequeue<Q>(arrived: map<Q, seq<Packet>>, served: map<Q, seq<Packet>>, s: State<Q>)
    requires Ok(s) && Fifo(arrived, served, s)
    ensures var (t, m) := Dequeue(s);
            if m == None then Fifo(arrived, served, t)
            else t.ring != [] && t.ring[0] in served && Fifo(arrived, served[t.ring[0] := served[t.ring[0]] + [m.value]], t)
  {
    hide Ok, Dequeue, Idle;
    DequeueServes(s);
    var (t, m) := Dequeue(s);
    if m != None {
      var q := t.ring[0];
      assert served[q] + ([m.value] + t.flows[q].mq) == served[q] + [m.value] + t.flows[q].mq;
    }
  }

  lemma FifoNew<Q>(arrived: map<Q, seq<Packet>>, served: map<Q, seq<Packet>>, s: State<Q>, q: Q, quantum: nat, mq: seq<Packet>)
    requires Fifo(arrived, served, s) && q !in s.flows
    ensures Fifo(arrived[q := mq], served[q := []], New(s, q, quantum, mq))
  {
  }

  lemma FifoFree<Q>(arrived: map<Q, seq<Packet>>, served: map<Q, seq<Packet>>, s: State<Q>, q: Q)
    requires Fifo(arrived, served, s)
    ensures Fifo(arrived - {q}, served - {q}, Free(s, q))
  {
    hide Without;
  }

  // ---------------------------------------------------------------- fairness

  /** The place of a queue in the ring. */
  ghost function Pos<Q>(ring: seq<Q>, q: Q): nat
    requires q in ring
  {
    if ring[0] == q then 0 else 1 + Pos(ring[1..], q)
  }

  /** By how many passes queue `i` is ahead of queue `j`, apart from a pass that `j` is yet to make in
      this round. */
  ghost function Lead<Q>(s: State<Q>, i: Q, j: Q): int
    requires i in s.ring && j in s.ring && i in s.flows && j in s.flows
  {
    s.flows[i].passes - s.flows[j].passes - if Pos(s.ring, j) < Pos(s.ring, i) then 1 else 0
  }

  lemma {:induction false} PosAppend<Q>(ring: seq<Q>, q: Q, p: Q)
    ensures p in ring ==> Pos(ring + [q], p) == Pos(ring, p) < |ring|
    ensures p !in ring ==> Pos(ring + [p], p) == |ring|
  {
    if ring == [] {
      assert ring + [p] == [p];
    } else {
      PosAppend(ring[1..], q, p);
      assert (ring + [q])[1..] == ring[1..] + [q] && (ring + [p])[1..] == ring[1..] + [p];
    }
  }

  lemma {:induction false} PosWithout<Q>(ring: seq<Q>, q: Q, i: Q, j: Q)
    requires i in ring && j in ring && i != q && j != q && i != j
    ensures i in Without(ring, q) && j in Without(ring, q)
    ensures Pos(Without(ring, q), i) < Pos(Without(ring, q), j) <==> Pos(ring, i) < Pos(ring, j)
  {
    if ring[0] == q {
    } else {
      var w := Without(ring[1..], q);
      assert Without(ring, q) == [ring[0]] + w;
      assert ([ring[0]] + w)[1..] == w;
      if ring[0] == i {
        StillIn(ring[1..], q, j);
      } else if ring[0] == j {
        StillIn(ring[1..], q, i);
      } else {
        PosWithout(ring[1..], q, i, j);
      }
    }
  }

  lemma {:induction false} StillIn<Q>(ring: seq<Q>, q: Q, i: Q)
    ensures i in ring && i != q ==> i in Without(ring, q)
    ensures i in Without(ring, q) ==> i in ring
    ensures Distinct(ring) && i in Without(ring, q) ==> i != q
  {
    if ring != [] {
      StillIn(ring[1..], q, i);
      assert ring == [ring[0]] + ring[1..];
    }
  }

  /** One round: passing the head and dropping it keep every lead. */
  lemma PassLead<Q>(s: State<Q>, i: Q, j: Q)
    requires Running(s) && i in s.ring && j in s.ring && i != j
    ensures i in Pass(s).ring && j in Pass(s).ring && Lead(Pass(s), i, j) == Lead(s, i, j)
  {
    NotInTail(s.ring);
    PosAppend(s.ring[1..], s.ring[0], i);
    PosAppend(s.ring[1..], s.ring[0], j);
  }

  lemma {:induction false} DequeueLead<Q>(s: State<Q>, i: Q, j: Q)
    requires Ok(s) && i != j && i in Dequeue(s).0.ring && j in Dequeue(s).0.ring
    ensures i in s.ring && j in s.ring && i in s.flows && j in s.flows
    ensures Lead(Dequeue(s).0, i, j) == Lead(s, i, j)
    ensures (forall q :: q in s.flows ==> q in Dequeue(s).0.flows && Dequeue(s).0.flows[q].quantum == s.flows[q].quantum)
    decreases Measure(s)
  {
    hide FlowOk;
    var f := s.flows[s.ring[0]];
    if f.mq == [] {
      ExpireOk(s);
      ExpireMeasure(s);
      DequeueLead(Expire(s), i, j);
      NotInTail(s.ring);
    } else if f.mq[0].len > f.credit {
      PassOk(s);
      PassMeasure(s);
      DequeueLead(Pass(s), i, j);
      NotInTail(s.ring);
      PassLead(s, i, j);
    } else {
      SendOk(s);
    }
  }

  // ---------------------------------------------------------------- runs

  datatype Event<Q> = Arrival(q: Q, m: Packet) | Service | Creation(q: Q, quantum: nat, mq: seq<Packet>) | Deletion(q: Q)

  ghost predicate Enabled<Q>(s: State<Q>, e: Event<Q>)
  {
    match e
    case Arrival(q, m) => q in s.flows
    case Service => Ok(s)
    case Creation(q, quantum, mq) => q !in s.flows && quantum > 0
    case Deletion(q) => q in s.flows
  }

  ghost function Apply<Q>(s: State<Q>, e: Event<Q>): State<Q>
    requires Enabled(s, e)
  {
    match e
    case Arrival(q, m) => Arrive(s, q, m)
    case Service => Dequeue(s).0
    case Creation(q, quantum, mq) => New(s, q, quantum, mq)
    case Deletion(q) => Free(s, q)
  }

  /** The states that a sequence of events leads through. */
  ghost predicate Run<Q>(ss: seq<State<Q>>, es: seq<Event<Q>>)
  {
    && |ss| == |es| + 1 && Ok(ss[0])
    && forall k :: 0 <= k < |es| ==> Enabled(ss[k], es[k]) && ss[k + 1] == Apply(ss[k], es[k])
  }

  lemma GrownFlow(f: Flow, lmax: nat, lmax': nat, mq: seq<Packet>)
    requires FlowOk(f, true, lmax) && lmax <= lmax' && forall k :: 0 <= k < |mq| ==> mq[k].len <= lmax'
    ensures FlowOk(f.(mq := f.mq + mq), true, lmax')
  {
  }

  lemma GrownMax(f: Flow, inRing: bool, lmax: nat, lmax': nat)
    requires FlowOk(f, inRing, lmax) && lmax <= lmax'
    ensures FlowOk(f, inRing, lmax')
  {
  }

  lemma AppendedFlow(f: Flow, lmax: nat)
    requires f.quantum > 0 && lmax > 0 && forall k :: 0 <= k < |f.mq| ==> f.mq[k].len <= lmax
    ensures FlowOk(f.(credit := f.quantum, passes := 0, sent := 0), true, lmax)
  {
  }

  /** Every queue but `q` keeps its flow and its place in or out of the ring. */
  lemma OneFlow<Q>(s: State<Q>, t: State<Q>, q: Q)
    requires Ok(s) && s.lmax <= t.lmax && Distinct(t.ring) && (forall p :: p in t.ring ==> p in t.flows)
    requires forall p :: p in t.flows && p != q ==> p in s.flows && t.flows[p] == s.flows[p] && (p in t.ring <==> p in s.ring)
    requires q in t.flows ==> FlowOk(t.flows[q], q in t.ring, t.lmax)
    ensures Ok(t)
  {
    hide FlowOk;
    forall p | p in t.flows
      ensures FlowOk(t.flows[p], p in t.ring, t.lmax)
    {
      if p != q {
        assert FlowOk(s.flows[p], p in s.ring, s.lmax);
        GrownMax(s.flows[p], p in s.ring, s.lmax, t.lmax);
      }
    }
  }

  lemma ArriveOk<Q>(s: State<Q>, q: Q, m: Packet)
    requires Ok(s) && q in s.flows
    ensures Ok(Arrive(s, q, m))
  {
    hide Ok, FlowOk;
    var f, t := s.flows[q], Arrive(s, q, m);
    RingOf(s, q);
    if q in s.ring {
      GrownFlow(f, s.lmax, t.lmax, [m]);
    } else {
      OutOfRing(s, q);
      assert f.mq + [m] == [m];
      AppendedFlow(f.(mq := [m]), t.lmax);
    }
    OneFlow(s, t, q);
  }

  lemma RingOf<Q>(s: State<Q>, q: Q)
    requires Ok(s)
    ensures Distinct(s.ring) && (forall p :: p in s.ring ==> p in s.flows) && s.lmax > 0
    ensures q in s.flows ==> FlowOk(s.flows[q], q in s.ring, s.lmax) && s.flows[q].quantum > 0
    ensures q !in s.flows ==> q !in s.ring
  {
  }

  lemma NewOk<Q>(s: State<Q>, q: Q, quantum: nat, mq: seq<Packet>)
    requires Ok(s) && q !in s.flows && quantum > 0
    ensures Ok(New(s, q, quantum, mq))
  {
    hide Ok, FlowOk;
    var t := New(s, q, quantum, mq);
    RingOf(s, q);
    AppendedFlow(Flow(mq, quantum, quantum, 0, 0), t.lmax);
    if mq == [] {
      LeavesRing(t.flows[q], t.lmax);
    }
    OneFlow(s, t, q);
  }

  lemma {:induction false} WithoutDistinct<Q>(ring: seq<Q>, q: Q)
    requires Distinct(ring)
    ensures Distinct(Without(ring, q)) && forall p :: p in Without(ring, q) <==> p in ring && p != q
  {
    if ring != [] {
      NotInTail(ring);
      if ring[0] != q {
        WithoutDistinct(ring[1..], q);
      }
    }
  }

  lemma FreeOk<Q>(s: State<Q>, q: Q)
    requires Ok(s) && q in s.flows
    ensures Ok(Free(s, q))
  {
    hide Ok, FlowOk;
    RingOf(s, q);
    WithoutDistinct(s.ring, q);
    forall p | p in Free(s, q).ring
      ensures p in Free(s, q).flows
    {
      StillIn(s.ring, q, p);
    }
    OneFlow(s, Free(s, q), q);
  }

  lemma ApplyOk<Q>(s: State<Q>, e: Event<Q>)
    requires Ok(s) && Enabled(s, e)
    ensures Ok(Apply(s, e))
  {
    hide Ok;
    match e
    case Arrival(q, m) => ArriveOk(s, q, m);
    case Service =>
    case Creation(q, quantum, mq) => NewOk(s, q, quantum, mq);
    case Deletion(q) => FreeOk(s, q);
  }

  /** Both queues are in the ring. */
  ghost predicate Both<Q>(s: State<Q>, i: Q, j: Q)
  {
    i in s.ring && j in s.ring && i in s.flows && j in s.flows
  }

  /** No operation changes by how many passes one queue leads another while both stay in the ring. */
  lemma ApplyLead<Q>(s: State<Q>, e: Event<Q>, i: Q, j: Q)
    requires Ok(s) && Enabled(s, e) && i != j && Both(s, i, j) && Both(Apply(s, e), i, j)
    ensures Lead(Apply(s, e), i, j) == Lead(s, i, j)
    ensures Apply(s, e).flows[i].quantum == s.flows[i].quantum && Apply(s, e).flows[j].quantum == s.flows[j].quantum
    ensures Apply(s, e).lmax >= s.lmax
  {
    hide FlowOk, Pos;
    match e
    case Arrival(q, m) =>
      PosAppend(s.ring, q, i);
      PosAppend(s.ring, q, j);
    case Service =>
      DequeueLead(s, i, j);
      DequeueServes(s);
    case Creation(q, quantum, mq) =>
      PosAppend(s.ring, q, i);
      PosAppend(s.ring, q, j);
    case Deletion(q) =>
      WithoutDistinct(s.ring, q);
      PosWithout(s.ring, q, i, j);
      PosWithout(s.ring, q, j, i);
  }

  lemma {:induction false} RunOk<Q>(ss: seq<State<Q>>, es: seq<Event<Q>>, k: nat)
    requires Run(ss, es) && k < |ss|
    ensures Ok(ss[k])
  {
    hide Ok, Enabled, Apply;
    if k > 0 {
      RunOk(ss, es, k - 1);
      ApplyOk(ss[k - 1], es[k - 1]);
      assert ss[k - 1 + 1] == ss[k];
    }
  }

  /** Both queues are in the ring from state `a` to state `b`. */
  ghost predicate Stay<Q>(ss: seq<State<Q>>, a: nat, b: nat, i: Q, j: Q)
  {
    a <= b < |ss| && forall n :: a <= n <= b ==> Both(ss[n], i, j)
  }

  lemma {:induction false} RunLead<Q>(ss: seq<State<Q>>, es: seq<Event<Q>>, a: nat, b: nat, i: Q, j: Q)
    requires Run(ss, es) && i != j && Stay(ss, a, b, i, j)
    ensures Both(ss[a], i, j) && Both(ss[b], i, j)
    ensures Lead(ss[b], i, j) == Lead(ss[a], i, j) && ss[b].lmax >= ss[a].lmax
    ensures ss[b].flows[i].quantum == ss[a].flows[i].quantum && ss[b].flows[j].quantum == ss[a].flows[j].quantum
    decreases b
  {
    hide Ok, Enabled, Apply;
    assert Both(ss[a], i, j) && Both(ss[b], i, j);
    if a < b {
      RunLead(ss, es, a, b - 1, i, j);
      RunOk(ss, es, b - 1);
      assert ss[b - 1 + 1] == ss[b];
      ApplyLead(ss[b - 1], es[b - 1], i, j);
    }
  }

  /** What a queue of quantum `q` sends while it is passed `p` times. */
  lemma SentBounds(q: nat, p: int, a: int, c: int, c': int, lmax: nat)
    requires a == q * p + c - c' && 0 <= c < q + lmax && 0 <= c' < q + lmax
    ensures q * p - (q + lmax) < a < q * p + q + lmax
  {
  }

  lemma MulLess(m: nat, a: int, b: int)
    requires m > 0 && a < b
    ensures m * a < m * b
  {
  }

  lemma Above(qi: nat, qj: nat, a: int, p: int, lmax: nat)
    requires qj > 0 && a < qi * p + qi + lmax
    ensures qj * a < qi * qj * p + qi * qj + lmax * qj
  {
    MulLess(qj, a, qi * p + qi + lmax);
    assert qj * (qi * p) == qi * qj * p;
  }

  lemma Beneath(qi: nat, qj: nat, a: int, p: int, lmax: nat)
    requires qi > 0 && a > qj * p - (qj + lmax)
    ensures qi * a > qi * qj * p - qi * qj - lmax * qi
  {
    MulLess(qi, qj * p - (qj + lmax), a);
    assert qi * (qj * p) == qi * qj * p;
  }

  lemma MulOne(q: nat, d: int)
    requires d <= 1
    ensures q * d <= q
  {
    MulMono(d, 1, q);
  }

  lemma CrossBound(qi: nat, qj: nat, ai: int, aj: int, pi: int, pj: int, lmax: nat)
    requires qi > 0 && qj > 0 && -1 <= pi - pj <= 1
    requires ai < qi * pi + qi + lmax && aj > qj * pj - (qj + lmax)
    ensures qj * ai - qi * aj < 3 * qi * qj + lmax * (qi + qj)
  {
    Above(qi, qj, ai, pi, lmax);
    Beneath(qi, qj, aj, pj, lmax);
    MulOne(qi * qj, pi - pj);
    assert qi * qj * (pi - pj) == qi * qj * pi - qi * qj * pj;
  }

  /** Fairness: over any stretch of a run during which queues `i` and `j` stay in the ring, the bytes
      each sends, divided by its quantum, differ by less than 3 + lmax / quantum_i + lmax / quantum_j. */
  lemma Fairness<Q>(ss: seq<State<Q>>, es: seq<Event<Q>>, a: nat, b: nat, i: Q, j: Q)
    requires Run(ss, es) && i != j && Stay(ss, a, b, i, j)
    ensures Both(ss[a], i, j) && Both(ss[b], i, j)
    ensures var s, t := ss[a], ss[b];
            var qi, qj := s.flows[i].quantum, s.flows[j].quantum;
            var ai, aj := t.flows[i].sent - s.flows[i].sent, t.flows[j].sent - s.flows[j].sent;
            -(3 * qi * qj + t.lmax * (qi + qj)) < qj * ai - qi * aj < 3 * qi * qj + t.lmax * (qi + qj)
  {
    hide Ok, Lead, Enabled, Apply;
    RunLead(ss, es, a, b, i, j);
    RunOk(ss, es, a);
    RunOk(ss, es, b);
    FairBetween(ss[a], ss[b], i, j);
  }

  lemma CreditLaw<Q>(s: State<Q>, t: State<Q>, i: Q)
    requires Ok(s) && Ok(t) && i in s.flows && i in t.flows && i in s.ring && i in t.ring
    requires s.flows[i].quantum == t.flows[i].quantum && s.lmax <= t.lmax
    ensures var f, g := s.flows[i], t.flows[i];
            && g.sent - f.sent == f.quantum * (g.passes - f.passes) + f.credit - g.credit
            && f.quantum > 0 && 0 <= f.credit < f.quantum + t.lmax && 0 <= g.credit < f.quantum + t.lmax
  {
    RingOf(s, i);
    RingOf(t, i);
    var f, g := s.flows[i], t.flows[i];
    assert f.quantum * (1 + g.passes) - f.quantum * (1 + f.passes) == f.quantum * (g.passes - f.passes);
  }

  lemma FairBetween<Q>(s: State<Q>, t: State<Q>, i: Q, j: Q)
    requires Ok(s) && Ok(t) && Both(s, i, j) && Both(t, i, j) && Lead(s, i, j) == Lead(t, i, j)
    requires s.flows[i].quantum == t.flows[i].quantum && s.flows[j].quantum == t.flows[j].quantum && s.lmax <= t.lmax
    ensures var qi, qj := s.flows[i].quantum, s.flows[j].quantum;
            var ai, aj := t.flows[i].sent - s.flows[i].sent, t.flows[j].sent - s.flows[j].sent;
            -(3 * qi * qj + t.lmax * (qi + qj)) < qj * ai - qi * aj < 3 * qi * qj + t.lmax * (qi + qj)
  {
    hide Ok, Pos;
    CreditLaw(s, t, i);
    CreditLaw(s, t, j);
    var qi, qj := s.flows[i].quantum, s.flows[j].quantum;
    var ai, aj := t.flows[i].sent - s.flows[i].sent, t.flows[j].sent - s.flows[j].sent;
    var pi, pj := t.flows[i].passes - s.flows[i].passes, t.flows[j].passes - s.flows[j].passes;
    SentBounds(qi, pi, ai, s.flows[i].credit, t.flows[i].credit, t.lmax);
    SentBounds(qj, pj, aj, s.flows[j].credit, t.flows[j].credit, t.lmax);
    CrossBound(qi, qj, ai, aj, pi, pj, t.lmax);
    CrossBound(qj, qi, aj, ai, pj, pi, t.lmax);
  }
}
