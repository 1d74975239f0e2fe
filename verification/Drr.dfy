/** The deficit round robin scheduler of sys/netinet/ipfw/dn_sched_rr.c: a circular list of queues. */
module Drr {
  import opened Basics
  import opened PacketQueue
  import S = DrrSpec

  /** struct rr_queue */
  class RrQueue {
    var mq: seq<Packet>
    var status: int
    var credit: int
    var quantum: nat
    var qnext: RrQueue?
    ghost var passes: nat
    ghost var sent: nat

    constructor (mq: seq<Packet>, quantum: nat)
      ensures this.mq == mq && status == 0 && credit == this.quantum == quantum && passes == sent == 0
    {
      this.mq, this.quantum, status, credit, qnext, passes, sent := mq, quantum, 0, quantum, null, 0, 0;
    }

    ghost function Flow(): S.Flow
      reads this
    {
      S.Flow(mq, credit, quantum, passes, sent)
    }
  }

  type State = S.State<RrQueue>
  type Event = S.Event<RrQueue>

  /** struct rr_si. `ring` is the list from the head; `states` are those after each of `events`. */
  class Instance {
    var head: RrQueue?
    var tail: RrQueue?
    ghost var ring: seq<RrQueue>
    ghost var queues: set<RrQueue>
    ghost var lmax: nat
    ghost var states: seq<State>
    ghost var events: seq<Event>
    /** The packets of each queue: all that came, and those sent. */
    ghost var arrived: map<RrQueue, seq<Packet>>
    ghost var served: map<RrQueue, seq<Packet>>

    /** The pointers make the ring. */
    ghost predicate Links()
      reads this, queues
    {
      && (forall k :: 0 <= k < |ring| ==> ring[k] in queues)
      && (if ring == [] then head == null && tail == null else head == ring[0] && tail == ring[|ring| - 1])
      && (forall k :: 0 <= k < |ring| - 1 ==> ring[k].qnext == ring[k + 1])
      && (ring != [] ==> ring[|ring| - 1].qnext == ring[0])
      && Distinct(ring)
    }

    ghost predicate Marked()
      reads this, queues
    {
      forall q :: q in queues ==> q.status == if q in ring then 1 else 0
    }

    ghost predicate Ring()
      reads this, queues
    {
      Links() && Marked()
    }

    ghost function St(): State
      reads this, queues
    {
      S.State(ring, map q | q in queues :: q.Flow(), lmax)
    }

    ghost predicate Valid()
      reads this, queues
    {
      Ring() && S.Ok(St()) && S.Run(states, events) && states[|states| - 1] == St() && S.Fifo(arrived, served, St())
    }

    /** The history grows by one event, after which `came` has arrived and `went` has been sent. */
    ghost method Log(e: Event, came: map<RrQueue, seq<Packet>>, went: map<RrQueue, seq<Packet>>)
      requires Ring() && S.Run(states, events) && S.Enabled(states[|states| - 1], e) && S.Apply(states[|states| - 1], e) == St()
      modifies `states, `events, `arrived, `served
      ensures Ring() && St() == old(St()) && S.Run(states, events) && states[|states| - 1] == St()
      ensures events == old(events) + [e] && states == old(states) + [St()] && arrived == came && served == went
    {
      hide S.Ok, S.Enabled, S.Apply, Distinct;
      arrived, served := came, went;
      states := states + [St()];
      events := events + [e];
      forall k | 0 <= k < |events|
        ensures S.Enabled(states[k], events[k]) && states[k + 1] == S.Apply(states[k], events[k])
      {
        assert k < |old(events)| ==> states[k] == old(states)[k] && states[k + 1] == old(states)[k + 1];
      }
    }

    constructor ()
      ensures Valid() && queues == {} && ring == [] && events == []
    {
      head, tail, ring, queues, lmax := null, null, [], {}, 1;
      states, events := [S.State([], map[], 1)], [];
      arrived, served := map[], map[];
      new;
      assert St() == S.State([], map[], 1);
    }

    /** rr_append: the pointers */
    method LinkLast(q: RrQueue)
      requires Links() && q in queues && q !in ring
      modifies this`head, this`tail, this`ring, queues
      ensures Links() && ring == old(ring) + [q]
      ensures forall p :: p in queues ==> p.Flow() == old(p.Flow()) && p.status == old(p.status)
    {
      if head == null {
        head := q;
      } else {
        tail.qnext := q;
      }
      tail := q;
      q.qnext := head;
      ring := ring + [q];
    }

    /** rr_append */
    method Append(q: RrQueue)
      requires Ring() && q in queues && q.status == 0
      modifies this`head, this`tail, this`ring, queues
      ensures Ring() && St() == S.Append(old(St()), q)
    {
      hide Distinct;
      q.status := 1;
      q.credit := q.quantum;
      q.passes, q.sent := 0, 0;
      LinkLast(q);
    }

    /** rr_remove_head: the pointers */
    method UnlinkHead()
      requires Links() && ring != []
      modifies this`head, this`tail, this`ring, queues
      ensures Links() && ring == old(ring)[1..]
      ensures forall p :: p in queues ==> p.Flow() == old(p.Flow()) && p.status == old(p.status)
    {
      S.NotInTail(ring);
      if head == tail {
        head, tail := null, null;
      } else {
        head := head.qnext;
        tail.qnext := head;
      }
      ring := ring[1..];
    }

    /** rr_remove_head */
    method RemoveHead()
      requires Ring()
      modifies this`head, this`tail, this`ring, queues
      ensures Ring() && St() == if old(ring) == [] then old(St()) else S.Expire(old(St()))
    {
      hide Distinct;
      if head == null {
        return;
      }
      S.NotInTail(ring);
      head.status := 0;
      UnlinkHead();
    }

    /** next_pointer */
    method NextPointer()
      requires Ring()
      modifies this`head, this`tail, this`ring
      ensures Ring() && St() == old(St()).(ring := if old(ring) == [] then [] else old(ring[1..] + [ring[0]]))
    {
      if head == null {
        return;
      }
      S.NotInTail(ring);
      head := head.qnext;
      tail := tail.qnext;
      ring := ring[1..] + [ring[0]];
    }

    /** The part of remove_queue_q that looks for the predecessor of `q`. */
    method FindPrev(q: RrQueue) returns (prev: RrQueue, ghost n: nat)
      requires Links() && q in ring && ring[0] != q
      ensures Distinct(ring)
      ensures n + 1 < |ring| && ring[n] == prev && ring[n + 1] == q
    {
      prev, n := head, 0;
      while prev.qnext != q
        invariant n < |ring| && ring[n] == prev && q !in ring[..n + 1]
        decreases |ring| - n
      {
        assert ring[n].qnext == ring[n + 1];
        prev, n := prev.qnext, n + 1;
      }
    }

    /** remove_queue_q: the pointers around a queue that is not the head */
    method Unlink(q: RrQueue, prev: RrQueue, ghost n: nat)
      requires Links() && n + 1 < |ring| && ring[n] == prev && ring[n + 1] == q
      modifies this`tail, this`ring, queues
      ensures Links() && St() == old(St()).(ring := old(ring[..n + 1] + ring[n + 2..]))
      ensures forall p :: p in queues ==> p.status == old(p.status)
    {
      prev.qnext := q.qnext;
      if q == tail {
        tail := prev;
      }
      ring := ring[..n + 1] + ring[n + 2..];
    }

    method Unmark(q: RrQueue)
      requires Links() && q in queues && q !in ring
      requires forall p :: p in queues && p != q ==> p.status == if p in ring then 1 else 0
      modifies q
      ensures Ring() && St() == old(St())
    {
      hide Distinct;
      q.status := 0;
    }

    /** remove_queue_q for a queue that is in the list but not its head */
    method RemoveInner(q: RrQueue)
      requires Ring() && q in ring && q != ring[0]
      modifies this`head, this`tail, this`ring, queues
      ensures Ring() && St() == old(St()).(ring := S.Without(old(ring), q))
    {
      hide S.Without, Distinct;
      var prev, n := FindPrev(q);
      S.WithoutAt(ring, q, n + 1);
      S.WithoutDistinct(ring, q);
      Unlink(q, prev, n);
      Unmark(q);
    }

    /** remove_queue_q */
    method RemoveQueue(q: RrQueue)
      requires Ring() && q in queues
      modifies this`head, this`tail, this`ring, queues
      ensures Ring() && St() == old(St()).(ring := S.Without(old(ring), q))
    {
      hide Distinct;
      S.NotWithout(ring, q);
      if q.status != 1 {
        return;
      }
      if q == head {
        RemoveHead();
        return;
      }
      RemoveInner(q);
    }

    /** dn_enqueue */
    method Push(q: RrQueue, m: Packet)
      requires Ring() && q in queues
      modifies q, `lmax
      ensures Ring() && q.status == old(q.status)
      ensures var s := old(St()); St() == s.(flows := s.flows[q := s.flows[q].(mq := s.flows[q].mq + [m])],
                                             lmax := if m.len > s.lmax then m.len else s.lmax)
    {
      hide Distinct;
      q.mq := q.mq + [m];
      lmax := if m.len > lmax then m.len else lmax;
    }

    /** rr_enqueue; `drop` is the verdict of dn_enqueue. */
    method Enqueue(q: RrQueue, m: Packet, drop: bool) returns (dropped: bool)
      requires Valid() && q in queues
      modifies this, queues
      ensures Valid() && dropped == drop && queues == old(queues)
      ensures drop ==> unchanged(this, queues)
      ensures !drop ==> St() == S.Arrive(old(St()), q, m)
      ensures !drop ==> events == old(events) + [S.Arrival(q, m)] && old(states) <= states
      ensures !drop ==> arrived == old(arrived)[q := old(arrived[q]) + [m]] && served == old(served)
    {
      hide S.Ok, S.Run, Links, S.Fifo;
      if drop {
        return true;
      }
      dropped := false;
      ghost var s := St();
      S.ArriveOk(s, q, m);
      S.Backlogged(s, q);
      S.FifoArrive(arrived, served, s, q, m);
      InFifo(q);
      var idle := q.mq == [];
      Push(q, m);
      if idle && q.status != 1 {
        Append(q);
      }
      Log(S.Arrival(q, m), arrived[q := arrived[q] + [m]], served);
    }

    /** A packet that is too long for the credit of the head queue. */
    method PassHead(q: RrQueue)
      requires Ring() && q == head
      modifies this`head, this`tail, this`ring, queues
      ensures Ring() && St() == S.Pass(old(St()))
    {
      hide Distinct;
      q.credit := q.credit + q.quantum;
      q.passes := q.passes + 1;
      NextPointer();
    }

    /** A packet that the head queue may send; the end is dn_dequeue. */
    method SendHead(q: RrQueue) returns (m: Packet)
      requires Ring() && q == head && q.mq != []
      modifies q
      ensures Ring() && m == old(q.mq[0]) && St() == S.Send(old(St()))
    {
      hide Distinct;
      var len := q.mq[0].len;
      q.credit := q.credit - len;
      q.sent := q.sent + len;
      m := q.mq[0];
      q.mq := q.mq[1..];
    }

    /** The loop of rr_dequeue. It ends because the measure of the state decreases; `credit` is never
        negative, so its comparison with an unsigned length is the mathematical one. */
    method NextPacket() returns (m: Option<Packet>)
      requires Ring() && S.Ok(St())
      modifies this`head, this`tail, this`ring, queues
      ensures Ring() && (St(), m) == S.Dequeue(old(St()))
    {
      hide Links, S.FlowOk, Distinct;
      ghost var s := St();
      m := None;
      while head != null
        invariant Ring() && S.Ok(St()) && S.Dequeue(St()) == S.Dequeue(s) && m == None
        decreases S.Measure(St())
        modifies this`head, this`tail, this`ring, queues
      {
        HeadIs();
        var q: RrQueue := head;
        if q.mq == [] {
          S.ExpireOk(St());
          S.ExpireMeasure(St());
          RemoveHead();
        } else if q.mq[0].len > q.credit {
          S.PassOk(St());
          S.PassMeasure(St());
          PassHead(q);
        } else {
          S.SendOk(St());
          var p := SendHead(q);
          m := Some(p);
          break;
        }
      }
      HeadIs();
    }

    /** rr_dequeue */
    method Dequeue() returns (m: Option<Packet>, ghost who: RrQueue?)
      requires Valid()
      modifies this, queues
      ensures Valid() && queues == old(queues)
      ensures (St(), m) == S.Dequeue(old(St()))
      ensures m == None <==> S.Idle(old(St()))
      ensures events == old(events) + [S.Service] && old(states) <= states
      ensures arrived == old(arrived) && (m == None ==> served == old(served))
      ensures m != None ==> who in old(served) && served == old(served)[who := old(served[who]) + [m.value]]
    {
      hide S.Ok, S.Run, Links, Marked, S.Idle, S.Dequeue, S.Fifo;
      S.NothingIffIdle(St());
      S.FifoDequeue(arrived, served, St());
      m := NextPacket();
      who := null;
      ghost var went := served;
      if m != None {
        who := ring[0];
        went := served[who := served[who] + [m.value]];
      }
      Log(S.Service, arrived, went);
    }

    lemma InFifo(q: RrQueue)
      requires S.Fifo(arrived, served, St()) && q in queues
      ensures q in arrived && q in served
    {
    }

    lemma HeadIs()
      requires Ring()
      ensures ring == [] <==> head == null
      ensures head != null ==> ring[0] == head && head in queues
    {
    }

    method Register(mq: seq<Packet>, quantum: nat) returns (q: RrQueue)
      requires Ring()
      modifies `queues, `lmax
      ensures Ring() && fresh(q) && queues == old(queues) + {q} && q.status == 0
      ensures var s := old(St()); St() == s.(flows := s.flows[q := S.Flow(mq, quantum, quantum, 0, 0)], lmax := S.Longest(mq, s.lmax))
    {
      hide Distinct;
      q := new RrQueue(mq, quantum);
      queues := queues + {q};
      lmax := S.Longest(mq, lmax);
    }

    /** rr_new_queue; the weight and the quantum step are bounded by rr_new_fsk. */
    method NewQueue(weight: nat, step: nat, mq: seq<Packet>) returns (q: RrQueue)
      requires Valid() && 1 <= weight <= 65536 && 64 <= step <= 2048
      modifies this, queues
      ensures Valid() && fresh(q) && queues == old(queues) + {q}
      ensures St() == S.New(old(St()), q, weight * step, mq)
      ensures q.quantum == q.credit == weight * step && q.mq == mq && (q in ring <==> mq != [])
      ensures events == old(events) + [S.Creation(q, weight * step, mq)] && old(states) <= states
      ensures arrived == old(arrived)[q := mq] && served == old(served)[q := []]
    {
      hide S.Ok, S.Run, Links, Marked, S.Fifo;
      ghost var s := St();
      var quantum := weight * step;
      q := Register(mq, quantum);
      S.NewOk(s, q, quantum, mq);
      S.FifoNew(arrived, served, s, q, quantum, mq);
      if mq != [] {
        Append(q);
      }
      assert St().flows[q] == q.Flow();
      S.NewIs(s, q, quantum, mq);
      Log(S.Creation(q, quantum, mq), arrived[q := mq], served[q := []]);
    }

    /** A queue leaves the list and is gone. */
    method Drop(q: RrQueue)
      requires Ring() && q in queues
      modifies this`head, this`tail, this`ring, this`queues, queues
      ensures Ring() && queues == old(queues) - {q} && St() == S.Free(old(St()), q)
    {
      hide S.Without, Distinct;
      FreedRing(q);
      RemoveQueue(q);
      queues := queues - {q};
    }

    /** rr_free_queue. A safe call leaves alone a queue that is in the list. */
    method FreeQueue(q: RrQueue, safe: bool) returns (busy: bool)
      requires Valid() && q in queues
      modifies this, queues
      ensures Valid() && busy == (safe && q in old(ring))
      ensures busy ==> unchanged(this, old(queues))
      ensures !busy ==> St() == S.Free(old(St()), q) && queues == old(queues) - {q}
      ensures !busy ==> events == old(events) + [S.Deletion(q)] && old(states) <= states
      ensures !busy ==> arrived == old(arrived) - {q} && served == old(served) - {q}
    {
      hide S.Ok, S.Run, Distinct, S.Without, S.Fifo;
      ghost var s := St();
      if safe && q.status != 0 {
        return true;
      }
      busy := false;
      S.FreeOk(s, q);
      S.FifoFree(arrived, served, s, q);
      Drop(q);
      Log(S.Deletion(q), arrived - {q}, served - {q});
    }

    lemma FreedRing(q: RrQueue)
      requires Ring()
      ensures forall p :: p in S.Without(ring, q) ==> p in queues && p != q
    {
      forall p | p in S.Without(ring, q)
        ensures p in queues && p != q
      {
        S.StillIn(ring, q, p);
      }
    }
  }
}
