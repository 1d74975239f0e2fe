/** The WF2Q+ scheduler of sys/netinet/ipfw/dn_sched_wf2q.c: a virtual time, the sum of the
  weights of all flows it knows, and three heaps that share the flows' back-pointer cells. */
module Wf2q {
  import opened Basics
  import opened PacketQueue
  import H = DnHeap

  /** 1 << FRAC_BITS: fixed point one. */
  const ONE_FP := 0x1000_0000

  /** The mutable part of struct wf2qp_queue: its packets and its timestamps. */
  datatype Flow = Flow(mq: seq<Packet>, S: int, F: int)

  type Flows = map<nat, Flow>

  /** The fixed point inverse of a weight or of a sum of weights. */
  function Inverse(w: int): (r: int)
    requires w > 0
    ensures r >= 0
  {
    ONE_FP / w
  }

  /** The largest value of the C int that bounds idle_check's work. */
  const INT_MAX := 0x7fff_ffff

  ghost predicate Backlogged(flows: Flows, q: nat) { q in flows && flows[q].mq != [] }

  /** Timestamps with F < S mark a flow the scheduler does not know. */
  predicate Unknown(f: Flow) { f.F < f.S }

  /** S <= max(V, min of all backlogged S). */
  ghost predicate Eligible(flows: Flows, V: int, q: nat)
  {
    && Backlogged(flows, q)
    && (flows[q].S <= V || forall r :: Backlogged(flows, r) ==> flows[q].S <= flows[r].S)
  }

  /** `v` is max(V, min of all backlogged S), or V when nothing is backlogged. */
  ghost predicate Bumped(flows: Flows, V: int, v: int)
  {
    if forall r :: Backlogged(flows, r) ==> V < flows[r].S then
      if exists r :: Backlogged(flows, r) then
        && (exists r :: Backlogged(flows, r) && flows[r].S == v)
        && (forall r :: Backlogged(flows, r) ==> v <= flows[r].S)
      else v == V
    else v == V
  }

  lemma EligibleIffBelow(flows: Flows, V: int, v: int, q: nat)
    requires Bumped(flows, V, v)
    ensures Eligible(flows, V, q) <==> Backlogged(flows, q) && flows[q].S <= v
  {
    if Backlogged(flows, q) && forall r :: Backlogged(flows, r) ==> V < flows[r].S {
      var r :| Backlogged(flows, r) && flows[r].S == v;
    }
  }

  /** Which heap a flow is in, and under which key. */
  datatype Place = Nowhere | InSch(key: int) | InNe(key: int) | InIdle(key: int)

  /** A snapshot of a scheduler instance: its fields and the contents of its three heaps. */
  datatype State = State(flows: Flows, weight: map<nat, nat>, sch: map<nat, int>, ne: map<nat, int>,
                         idle: map<nat, int>, V: int, wsum: int, invWsum: int)
  {
    ghost function PlaceOf(q: nat): Place {
      if q in sch then InSch(sch[q]) else if q in ne then InNe(ne[q]) else if q in idle then InIdle(idle[q]) else Nowhere
    }

    ghost function Known(): set<nat> { sch.Keys + ne.Keys + idle.Keys }
  }

  /** The finish time of a flow that starts `len` bytes at time `S`. */
  function Finish(S: int, len: nat, w: nat): (f: int)
    requires w > 0
    ensures S <= f
  {
    S + len * Inverse(w)
  }

  /** A virtual time of `d` is worth `bytes` bytes of a flow of weight `w`, up to the fraction that the fixed
      point inverse of the weight loses for each byte. */
  ghost predicate Worth(w: nat, d: int, bytes: nat)
  {
    w * d <= bytes * ONE_FP <= w * d + bytes * w
  }

  lemma InverseIs(w: int)
    requires w > 0
    ensures w * Inverse(w) <= ONE_FP < w * Inverse(w) + w
  {
    assert ONE_FP == Inverse(w) * w + ONE_FP % w;
  }

  /** A flow finishes its head packet when it has had what that is worth. */
  lemma FinishIs(S: int, len: nat, w: nat)
    requires w > 0
    ensures Worth(w, Finish(S, len, w) - S, len)
  {
    InverseIs(w);
    var r := Inverse(w);
    assert w * (len * r) == (w * r) * len;
    MulMono(w * r, ONE_FP, len);
    MulMono(ONE_FP, w * r + w, len);
    assert (w * r + w) * len == (w * r) * len + w * len;
  }

  lemma WorthAdd(w: nat, d: int, bytes: nat, d': int, bytes': nat)
    requires Worth(w, d, bytes) && Worth(w, d', bytes')
    ensures Worth(w, d + d', bytes + bytes')
  {
    assert w * (d + d') == w * d + w * d';
    assert (bytes + bytes') * w == bytes * w + bytes' * w;
  }

  /** Of two flows that start together with packets of one length, the heavier one finishes no later. */
  lemma HeavierFirst(S: int, len: nat, w: nat, w': nat)
    requires 0 < w <= w'
    ensures Finish(S, len, w') <= Finish(S, len, w)
  {
    InverseIs(w);
    InverseIs(w');
    var r, r' := Inverse(w), Inverse(w');
    assert (r + 1) * w == w * r + w;
    MulMono(w, w', r');
    if r < r' {
      MulMono(r + 1, r', w);
      assert false;
    }
    MulMono(r', r, len);
  }

  /** What one flow's place says about it: queued exactly if in sch or ne; in sch under its finish
      time and eligible; in ne under its start time; idle with S == F; and unknown (F < S) nowhere. */
  ghost predicate FlowOk(f: Flow, w: nat, p: Place, V: int)
  {
    && w > 0
    && (f.mq != [] <==> p.InSch? || p.InNe?)
    && (f.mq != [] ==> f.F == Finish(f.S, f.mq[0].len, w))
    && match p
       case Nowhere => Unknown(f)
       case InSch(k) => k == f.F && f.S <= V
       case InNe(k) => k == f.S
       case InIdle(k) => k == f.F == f.S
  }

  /** No flow is in two heaps. */
  ghost predicate Apart(s: State)
  {
    s.sch.Keys !! s.ne.Keys && s.ne.Keys !! s.idle.Keys && s.sch.Keys !! s.idle.Keys
  }

  ghost predicate FlowsOk(s: State)
    requires s.flows.Keys == s.weight.Keys
  {
    forall q :: q in s.flows ==> FlowOk(s.flows[q], s.weight[q], s.PlaceOf(q), s.V)
  }

  /** The invariant that also holds between serving a flow and the next pass: flows that became
      eligible may still sit in ne, and sch may be empty. */
  ghost predicate Loose(s: State)
  {
    && s.flows.Keys == s.weight.Keys
    && Apart(s)
    && s.Known() <= s.flows.Keys
    && FlowsOk(s)
    && s.wsum == SumOf(s.weight, s.Known())
    && (s.wsum > 0 ==> s.invWsum == Inverse(s.wsum))
  }

  /** The invariant between calls: ne holds only flows with S > V, and if it holds any then sch
      is not empty, so the virtual time never leaves all backlogged flows waiting. */
  ghost predicate Inv(s: State)
  {
    && Loose(s)
    && (forall q :: q in s.ne ==> s.V < s.ne[q])
    && (s.ne != map[] ==> s.sch != map[])
  }

  /** Known to the scheduler but without packets: in the idle heap. */
  ghost predicate Idle(flows: Flows, q: nat) { q in flows && flows[q].mq == [] && !Unknown(flows[q]) }

  function Forget(f: Flow): Flow { f.(S := f.F + 1) }

  /** Only idle flows changed, by being marked unknown. */
  ghost predicate Forgetting(flows: Flows, flows': Flows)
  {
    && flows'.Keys == flows.Keys
    && forall q :: q in flows ==> flows'[q] == flows[q] || (Idle(flows, q) && flows'[q] == Forget(flows[q]))
  }

  /** The oldest idle flow was forgotten if it lay in the past, and nothing else changed. */
  ghost predicate ForgotOne(flows: Flows, flows': Flows, V: int)
  {
    if exists q :: Idle(flows, q) && flows[q].F < V then
      exists q :: && Idle(flows, q) && flows[q].F < V
                  && (forall r :: Idle(flows, r) ==> flows[q].F <= flows[r].F)
                  && flows' == flows[q := Forget(flows[q])]
    else flows' == flows
  }

  /** The idle flows `gone`, the oldest ones, were forgotten, which all lay in the past unless forced. */
  ghost predicate Drained(flows: Flows, flows': Flows, gone: set<nat>, force: bool, V: int)
  {
    && flows'.Keys == flows.Keys
    && (forall q :: q in gone ==> Idle(flows, q) && flows'[q] == Forget(flows[q]) && (force || flows[q].F < V))
    && (forall q :: q in flows && q !in gone ==> flows'[q] == flows[q])
    && (forall q, r :: q in gone && r !in gone && Idle(flows, r) ==> flows[q].F <= flows[r].F)
  }

  lemma DrainedStep(flows: Flows, flows': Flows, gone: set<nat>, force: bool, V: int, q: nat)
    requires Drained(flows, flows', gone, force, V) && Idle(flows', q) && (force || flows'[q].F < V)
    requires forall r :: Idle(flows', r) ==> flows'[q].F <= flows'[r].F
    ensures q !in gone && Drained(flows, flows'[q := Forget(flows'[q])], gone + {q}, force, V)
  {
    assert q !in gone;
    forall r | r !in gone && Idle(flows, r)
      ensures Idle(flows', r)
    {
    }
  }

  lemma DrainedForgets(flows: Flows, flows': Flows, gone: set<nat>, force: bool, V: int)
    requires Drained(flows, flows', gone, force, V)
    ensures Forgetting(flows, flows')
  {
    forall q | q in flows
      ensures flows'[q] == flows[q] || (Idle(flows, q) && flows'[q] == Forget(flows[q]))
    {
      assert q in gone || q !in gone;
    }
  }

  lemma DrainedOne(flows: Flows, flows': Flows, gone: set<nat>, V: int)
    requires Drained(flows, flows', gone, false, V) && |gone| <= 1
    requires |gone| < 1 ==> forall r :: Idle(flows', r) ==> V <= flows'[r].F
    ensures ForgotOne(flows, flows', V)
  {
    if |gone| == 0 {
      assert flows' == flows;
    } else {
      var q :| q in gone;
      assert |gone - {q}| == 0;
      assert gone == {q};
      assert flows' == flows[q := Forget(flows[q])];
    }
  }

  lemma DrainedNone(flows: Flows, force: bool, V: int)
    ensures Drained(flows, flows, {}, force, V)
  {
  }

  lemma IdleIffInHeap(s: State, q: nat)
    requires Loose(s)
    ensures Idle(s.flows, q) <==> q in s.idle
    ensures q in s.idle ==> q in s.flows && q in s.weight && s.idle[q] == s.flows[q].F
  {
    if q in s.flows {
      assert FlowOk(s.flows[q], s.weight[q], s.PlaceOf(q), s.V);
    }
  }

  ghost function ForgetState(s: State, x: nat): State
    requires x in s.flows && x in s.weight
  {
    var w := s.wsum - s.weight[x];
    s.(flows := s.flows[x := Forget(s.flows[x])], idle := s.idle - {x}, wsum := w,
       invWsum := if w > 0 then Inverse(w) else s.invWsum)
  }

  lemma ForgetKeepsFlows(s: State, x: nat)
    requires Loose(s) && x in s.idle
    ensures FlowsOk(ForgetState(s, x))
  {
    var t := ForgetState(s, x);
    forall q | q in t.flows
      ensures FlowOk(t.flows[q], t.weight[q], t.PlaceOf(q), t.V)
    {
      assert FlowOk(s.flows[q], s.weight[q], s.PlaceOf(q), s.V);
      if q != x {
        assert t.PlaceOf(q) == s.PlaceOf(q);
      }
    }
  }

  lemma ForgetKeepsInv(s: State, x: nat)
    requires Inv(s) && x in s.idle
    ensures x in s.flows && x in s.weight && s.wsum - s.weight[x] >= 0 && Inv(ForgetState(s, x))
  {
    hide FlowsOk, SumOf, Inverse, Finish;
    var t := ForgetState(s, x);
    SumRemove(s.weight, s.Known(), x);
    assert t.Known() == s.Known() - {x};
    ForgetKeepsFlows(s, x);
  }

  /** Per flow, what arrived is what was served followed by what is queued. */
  ghost predicate Fifo(arrived: map<nat, seq<Packet>>, served: map<nat, seq<Packet>>, flows: Flows)
  {
    && arrived.Keys == served.Keys == flows.Keys
    && forall q :: q in flows ==> arrived[q] == served[q] + flows[q].mq
  }

  /** When a flow became backlogged last: its start time then, and how many packets had been served. */
  datatype Base = Base(S: int, sent: nat)

  /** The start time of a flow that stays backlogged grows by what the bytes it is served are worth. */
  ghost predicate Paid(base: map<nat, Base>, served: map<nat, seq<Packet>>, flows: Flows, weight: map<nat, nat>)
  {
    && base.Keys == served.Keys == flows.Keys == weight.Keys
    && forall q :: Backlogged(flows, q) ==> PaidFlow(base[q], served[q], flows[q].S, weight[q])
  }

  ghost predicate PaidFlow(b: Base, served: seq<Packet>, S: int, w: nat)
  {
    b.sent <= |served| && Worth(w, S - b.S, Bytes(served[b.sent..]))
  }

  /** The start time of a flow that becomes backlogged is the virtual time, or its last finish time if that is
      later and the scheduler still knows the flow; the virtual time catches up if nothing is backlogged. */
  ghost predicate StartsAt(flows: Flows, V: int, q: nat, flows': Flows, V': int)
    requires q in flows && q in flows'
  {
    var f, S := flows[q], flows'[q].S;
    && V <= S && (S == V || (!Unknown(f) && S == f.F)) && (!Unknown(f) ==> f.F <= S)
    && V' == if exists r :: Backlogged(flows, r) then V else S
  }

  lemma ActivateTimes(s: State, q: nat, mq: seq<Packet>)
    requires Loose(s) && q in s.flows && q in s.weight && s.weight[q] > 0 && mq != []
    ensures var t := ActivateState(s, q, mq);
            && t.flows == s.flows[q := t.flows[q]] && t.flows[q].mq == mq && t.weight == s.weight
            && StartsAt(s.flows, s.V, q, t.flows, t.V)
  {
    hide Finish, Inverse;
    if r :| Backlogged(s.flows, r) {
      assert FlowOk(s.flows[r], s.weight[r], s.PlaceOf(r), s.V);
    } else {
      forall r
        ensures r !in s.sch && r !in s.ne
      {
        assert r in s.sch || r in s.ne ==> r in s.Known();
        assert !Backlogged(s.flows, r);
        if r in s.flows {
          assert FlowOk(s.flows[r], s.weight[r], s.PlaceOf(r), s.V);
        }
      }
    }
  }

  lemma PaidForgetting(base: map<nat, Base>, served: map<nat, seq<Packet>>, flows: Flows, weight: map<nat, nat>, flows': Flows)
    requires Paid(base, served, flows, weight) && Forgetting(flows, flows')
    ensures Paid(base, served, flows', weight)
  {
    hide PaidFlow;
  }

  lemma PaidKept(base: map<nat, Base>, served: map<nat, seq<Packet>>, flows: Flows, weight: map<nat, nat>, q: nat, f: Flow)
    requires Paid(base, served, flows, weight) && q in flows && f.mq == []
    ensures Paid(base, served, flows[q := f], weight)
  {
    hide PaidFlow;
  }

  lemma PaidAppend(base: map<nat, Base>, served: map<nat, seq<Packet>>, flows: Flows, weight: map<nat, nat>, q: nat, m: Packet)
    requires Paid(base, served, flows, weight) && Backlogged(flows, q)
    ensures Paid(base, served, flows[q := flows[q].(mq := flows[q].mq + [m])], weight)
  {
    hide PaidFlow;
  }

  lemma PaidStart(base: map<nat, Base>, served: map<nat, seq<Packet>>, flows: Flows, weight: map<nat, nat>, q: nat, f: Flow)
    requires Paid(base, served, flows, weight) && q in flows
    ensures Paid(base[q := Base(f.S, |served[q]|)], served, flows[q := f], weight)
  {
    assert served[q][|served[q]|..] == [];
    assert Bytes([]) == 0;
  }

  lemma PaidNew(base: map<nat, Base>, served: map<nat, seq<Packet>>, flows: Flows, weight: map<nat, nat>, q: nat, f: Flow, w: nat)
    requires Paid(base, served, flows, weight) && q !in flows
    ensures Paid(base[q := Base(f.S, 0)], served[q := []], flows[q := f], weight[q := w])
  {
    var none: seq<Packet> := [];
    assert none[0..] == none && Bytes(none) == 0;
  }

  lemma FlowOf(s: State, q: nat)
    requires Loose(s) && Backlogged(s.flows, q)
    ensures q in s.weight && s.weight[q] > 0 && s.flows[q].F == Finish(s.flows[q].S, s.flows[q].mq[0].len, s.weight[q])
  {
    hide Finish;
    assert FlowOk(s.flows[q], s.weight[q], s.PlaceOf(q), s.V);
  }

  lemma PaidMore(b: Base, served: seq<Packet>, S: int, F: int, w: nat, m: Packet)
    requires PaidFlow(b, served, S, w) && Worth(w, F - S, m.len)
    ensures PaidFlow(b, served + [m], F, w)
  {
    hide Worth;
    var was := served[b.sent..];
    assert (served + [m])[b.sent..] == was + [m];
    BytesMore(was, m);
    WorthAdd(w, S - b.S, Bytes(was), F - S, m.len);
  }

  lemma HeadWorth(s: State, q: nat)
    requires Loose(s) && Backlogged(s.flows, q)
    ensures q in s.weight && Worth(s.weight[q], s.flows[q].F - s.flows[q].S, s.flows[q].mq[0].len)
  {
    hide Worth, Finish;
    assert FlowOk(s.flows[q], s.weight[q], s.PlaceOf(q), s.V);
    FinishIs(s.flows[q].S, s.flows[q].mq[0].len, s.weight[q]);
  }

  lemma PaidServed(base: map<nat, Base>, served: map<nat, seq<Packet>>, s: State, mid: Flows, q: nat, f: Flow)
    requires Paid(base, served, s.flows, s.weight) && Loose(s) && Forgetting(s.flows, mid) && Backlogged(mid, q)
    requires f.S == mid[q].F
    ensures q in served && Paid(base, served[q := served[q] + [mid[q].mq[0]]], mid[q := f], s.weight)
  {
    hide Worth, Finish, Loose, PaidFlow;
    PaidForgetting(base, served, s.flows, s.weight, mid);
    assert mid[q] == s.flows[q];
    HeadWorth(s, q);
    PaidMore(base[q], served[q], mid[q].S, f.S, s.weight[q], mid[q].mq[0]);
  }

  /** wf2qp_enqueue for a flow that was idle or unknown. */
  ghost function ActivateState(s: State, q: nat, mq: seq<Packet>): State
    requires q in s.flows && q in s.weight && s.weight[q] > 0 && mq != []
  {
    var f := s.flows[q];
    var S := if Unknown(f) then s.V else Max(f.F, s.V);
    var F := Finish(S, mq[0].len, s.weight[q]);
    var V := if s.sch == map[] && s.ne == map[] then Max(S, s.V) else s.V;
    var wsum := if Unknown(f) then s.wsum + s.weight[q] else s.wsum;
    State(s.flows[q := Flow(mq, S, F)], s.weight,
          if V < S then s.sch else s.sch[q := F], if V < S then s.ne[q := S] else s.ne, s.idle - {q},
          V, wsum, if Unknown(f) && wsum > 0 then Inverse(wsum) else s.invWsum)
  }

  lemma ActivateKeepsFlows(s: State, q: nat, mq: seq<Packet>)
    requires Inv(s) && q in s.flows && s.weight[q] > 0 && s.flows[q].mq == [] && mq != []
    ensures FlowsOk(ActivateState(s, q, mq))
  {
    var t := ActivateState(s, q, mq);
    forall r | r in t.flows
      ensures FlowOk(t.flows[r], t.weight[r], t.PlaceOf(r), t.V)
    {
      assert FlowOk(s.flows[r], s.weight[r], s.PlaceOf(r), s.V);
      assert FlowOk(s.flows[q], s.weight[q], s.PlaceOf(q), s.V);
      assert r != q ==> t.PlaceOf(r) == s.PlaceOf(r);
    }
  }

  /** A flow without packets is in the idle heap if the scheduler knows it, else in none. */
  lemma QuietPlace(s: State, q: nat)
    requires Loose(s) && q in s.flows && s.flows[q].mq == []
    ensures s.weight[q] > 0 && q !in s.sch && q !in s.ne && (q in s.idle <==> !Unknown(s.flows[q]))
  {
    assert FlowOk(s.flows[q], s.weight[q], s.PlaceOf(q), s.V);
  }

  lemma QuietPlaceInv(s: State, q: nat)
    requires Inv(s) && q in s.flows && s.flows[q].mq == []
    ensures q in s.weight && s.weight[q] > 0
  {
    QuietPlace(s, q);
  }

  lemma ActivateKnown(s: State, q: nat, mq: seq<Packet>)
    requires q in s.flows && q in s.weight && s.weight[q] > 0 && mq != []
    requires q !in s.sch && q !in s.ne && (q in s.idle <==> !Unknown(s.flows[q]))
    ensures ActivateState(s, q, mq).Known() == s.Known() + {q}
  {
    hide Finish, Inverse;
  }

  lemma ActivateSum(s: State, q: nat, mq: seq<Packet>)
    requires q in s.flows && q in s.weight && s.weight[q] > 0 && mq != []
    requires q !in s.sch && q !in s.ne && (q in s.idle <==> !Unknown(s.flows[q]))
    requires s.Known() <= s.weight.Keys && s.wsum == SumOf(s.weight, s.Known())
    requires s.wsum > 0 ==> s.invWsum == Inverse(s.wsum)
    ensures var t := ActivateState(s, q, mq);
            t.wsum == SumOf(s.weight, s.Known() + {q}) && (t.wsum > 0 ==> t.invWsum == Inverse(t.wsum))
  {
    hide Finish, Inverse, SumOf;
    if Unknown(s.flows[q]) {
      SumAdd(s.weight, s.Known(), q);
    } else {
      assert s.Known() + {q} == s.Known();
    }
  }

  lemma ActivateApart(s: State, q: nat, mq: seq<Packet>)
    requires q in s.flows && q in s.weight && s.weight[q] > 0 && mq != [] && Apart(s)
    requires q !in s.sch && q !in s.ne
    ensures var t := ActivateState(s, q, mq);
            Apart(t) && t.weight == s.weight && t.flows.Keys == s.flows.Keys
  {
    hide Finish, Inverse;
  }

  lemma ActivateWaits(s: State, q: nat, mq: seq<Packet>)
    requires Inv(s) && q in s.flows && s.weight[q] > 0 && mq != []
    ensures var t := ActivateState(s, q, mq);
            && (forall r :: r in t.ne ==> t.V < t.ne[r]) && (t.ne != map[] ==> t.sch != map[])
            && (t.V < t.flows[q].S ==> s.sch != map[])
  {
    hide FlowsOk, SumOf, Inverse, Finish;
    assert s.sch == map[] ==> s.ne == map[];
  }

  /** In particular the "ouch" branch of wf2qp_enqueue is dead: a flow that must wait does not wait
      alone. */
  lemma ActivateKeepsInv(s: State, q: nat, mq: seq<Packet>)
    requires Inv(s) && q in s.flows && s.flows[q].mq == [] && mq != []
    ensures s.weight.Keys == s.flows.Keys && s.weight[q] > 0 && s.wsum >= 0
    ensures Inv(ActivateState(s, q, mq))
    ensures q !in s.sch && q !in s.ne && (q in s.idle <==> !Unknown(s.flows[q]))
    ensures ActivateState(s, q, mq).V < ActivateState(s, q, mq).flows[q].S ==> s.sch != map[]
  {
    hide FlowsOk, Finish, SumOf, Inverse;
    QuietPlace(s, q);
    ActivateKeepsFlows(s, q, mq);
    ActivateKnown(s, q, mq);
    ActivateSum(s, q, mq);
    ActivateWaits(s, q, mq);
    ActivateApart(s, q, mq);
    hide ActivateState;
    assert ActivateState(s, q, mq).flows.Keys == s.flows.Keys;
  }

  /** One more packet behind others changes neither timestamps nor places. */
  ghost function AppendState(s: State, q: nat, m: Packet): State
    requires q in s.flows
  {
    s.(flows := s.flows[q := s.flows[q].(mq := s.flows[q].mq + [m])])
  }

  lemma AppendKeepsFlows(s: State, q: nat, m: Packet)
    requires Loose(s) && q in s.flows && s.flows[q].mq != []
    ensures FlowsOk(AppendState(s, q, m))
  {
    var t := AppendState(s, q, m);
    forall r | r in t.flows
      ensures FlowOk(t.flows[r], t.weight[r], t.PlaceOf(r), t.V)
    {
      assert FlowOk(s.flows[r], s.weight[r], s.PlaceOf(r), s.V);
      assert t.PlaceOf(r) == s.PlaceOf(r);
    }
  }

  lemma AppendKeepsInv(s: State, q: nat, m: Packet)
    requires Inv(s) && q in s.flows && s.flows[q].mq != []
    ensures Inv(AppendState(s, q, m))
  {
    hide FlowsOk, SumOf, Inverse;
    AppendKeepsFlows(s, q, m);
    assert AppendState(s, q, m).Known() == s.Known();
  }

  /** A new flow starts with invalid timestamps. */
  ghost function NewState(s: State, q: nat, w: nat): State
  {
    s.(flows := s.flows[q := Flow([], 1, 0)], weight := s.weight[q := w])
  }

  lemma NewKeepsInv(s: State, q: nat, w: nat)
    requires Inv(s) && q !in s.flows && w > 0
    ensures Inv(NewState(s, q, w))
  {
    var t := NewState(s, q, w);
    forall r | r in t.flows
      ensures FlowOk(t.flows[r], t.weight[r], t.PlaceOf(r), t.V)
    {
      if r != q {
        assert FlowOk(s.flows[r], s.weight[r], s.PlaceOf(r), s.V);
      }
      assert t.PlaceOf(r) == s.PlaceOf(r);
    }
    assert t.Known() == s.Known();
    SumSame(s.weight, t.weight, s.Known());
  }

  lemma BumpedByTop(s: State, q: nat)
    requires Loose(s) && s.sch == map[] && q in s.ne && forall r :: r in s.ne ==> s.ne[q] <= s.ne[r]
    ensures Bumped(s.flows, s.V, Max(s.V, s.ne[q]))
  {
    forall r
      ensures Backlogged(s.flows, r) <==> r in s.ne
      ensures r in s.ne ==> s.ne[r] == s.flows[r].S
    {
      if r in s.flows {
        assert FlowOk(s.flows[r], s.weight[r], s.PlaceOf(r), s.V);
      }
    }
    assert Backlogged(s.flows, q);
  }

  lemma BumpedNot(s: State)
    requires Loose(s) && (s.sch != map[] || s.ne == map[])
    ensures Bumped(s.flows, s.V, s.V)
  {
    if s.sch != map[] {
      var q :| q in s.sch;
      assert FlowOk(s.flows[q], s.weight[q], s.PlaceOf(q), s.V);
      assert Backlogged(s.flows, q);
    } else {
      forall r
        ensures !Backlogged(s.flows, r)
      {
        if r in s.flows {
          assert FlowOk(s.flows[r], s.weight[r], s.PlaceOf(r), s.V);
        }
      }
    }
  }

  /** The virtual time may grow. */
  lemma RaiseKeepsLoose(s: State, v: int)
    requires Loose(s) && s.V <= v
    ensures Loose(s.(V := v))
  {
    var t := s.(V := v);
    forall r | r in t.flows
      ensures FlowOk(t.flows[r], t.weight[r], t.PlaceOf(r), t.V)
    {
      assert FlowOk(s.flows[r], s.weight[r], s.PlaceOf(r), s.V);
      assert t.PlaceOf(r) == s.PlaceOf(r);
    }
    assert t.Known() == s.Known();
  }

  /** A flow of ne whose start time has come may move to sch. */
  ghost function MoveState(s: State, q: nat): State
    requires q in s.flows
  {
    s.(sch := s.sch[q := s.flows[q].F], ne := s.ne - {q})
  }

  lemma MoveKeepsLoose(s: State, q: nat)
    requires Loose(s) && q in s.ne && s.ne[q] <= s.V
    ensures q in s.flows && Loose(MoveState(s, q))
  {
    var t := MoveState(s, q);
    assert FlowOk(s.flows[q], s.weight[q], s.PlaceOf(q), s.V);
    forall r | r in t.flows
      ensures FlowOk(t.flows[r], t.weight[r], t.PlaceOf(r), t.V)
    {
      assert FlowOk(s.flows[r], s.weight[r], s.PlaceOf(r), s.V);
      assert r != q ==> t.PlaceOf(r) == s.PlaceOf(r);
    }
    assert t.Known() == s.Known();
  }

  /** wf2qp_dequeue's second half: the head of `q` leaves, V advances by its length over the sum
      of weights, and `q` goes where its new timestamps belong. */
  ghost function ServeState(s: State, q: nat): State
    requires q in s.flows && q in s.weight && s.weight[q] > 0 && s.flows[q].mq != []
  {
    var f := s.flows[q];
    var V := s.V + f.mq[0].len * s.invWsum;
    var rest := f.mq[1..];
    var S := f.F;
    var F := if rest == [] then S else Finish(S, rest[0].len, s.weight[q]);
    s.(flows := s.flows[q := Flow(rest, S, F)], V := V,
       sch := if rest != [] && S <= V then s.sch[q := F] else s.sch - {q},
       ne := if rest != [] && V < S then s.ne[q := S] else s.ne,
       idle := if rest == [] then s.idle[q := F] else s.idle)
  }

  lemma ServedFlowOk(s: State, q: nat)
    requires Loose(s) && q in s.sch && s.flows[q].mq != [] && s.weight[q] > 0 && s.invWsum >= 0
    ensures var t := ServeState(s, q); FlowOk(t.flows[q], t.weight[q], t.PlaceOf(q), t.V)
  {
    assert FlowOk(s.flows[q], s.weight[q], s.PlaceOf(q), s.V);
  }

  lemma ServeKeepsFlows(s: State, q: nat)
    requires Loose(s) && q in s.sch && s.flows[q].mq != [] && s.weight[q] > 0 && s.invWsum >= 0
    ensures FlowsOk(ServeState(s, q))
  {
    hide Finish;
    var t := ServeState(s, q);
    ServedFlowOk(s, q);
    forall r | r in t.flows && r != q
      ensures FlowOk(t.flows[r], t.weight[r], t.PlaceOf(r), t.V)
    {
      assert FlowOk(s.flows[r], s.weight[r], s.PlaceOf(r), s.V);
      assert t.PlaceOf(r) == s.PlaceOf(r);
    }
  }

  lemma ServeApart(s: State, q: nat)
    requires Loose(s) && q in s.sch && s.flows[q].mq != [] && s.weight[q] > 0
    ensures Apart(ServeState(s, q)) && ServeState(s, q).Known() == s.Known()
  {
    hide FlowsOk, SumOf, Inverse, Finish;
  }

  lemma SchFlow(s: State, q: nat)
    requires Loose(s) && q in s.sch
    ensures s.flows[q].mq != [] && s.weight[q] > 0 && s.wsum > 0 && s.invWsum >= 0
    ensures s.sch[q] == s.flows[q].F && s.flows[q].S <= s.V
  {
    assert FlowOk(s.flows[q], s.weight[q], s.PlaceOf(q), s.V);
    SumRemove(s.weight, s.Known(), q);
  }

  lemma ServeKeepsLoose(s: State, q: nat)
    requires Loose(s) && q in s.sch
    ensures s.flows[q].mq != [] && s.weight[q] > 0 && Loose(ServeState(s, q))
  {
    hide FlowsOk, SumOf, Inverse, Finish;
    SchFlow(s, q);
    ServeKeepsFlows(s, q);
    ServeApart(s, q);
  }

  lemma ServeKeepsInv(s: State, q: nat)
    requires Inv(s) && q in s.sch
    ensures q in s.flows && q in s.weight && s.weight[q] > 0 && s.flows[q].mq != []
    ensures Loose(ServeState(s, q))
  {
    hide FlowsOk, SumOf, Inverse, Finish;
    ServeKeepsLoose(s, q);
  }

  /** The timestamps of a flow after its head has been served. */
  function NextFlow(f: Flow, w: nat): Flow
    requires f.mq != [] && w > 0
  {
    var rest := f.mq[1..];
    Flow(rest, f.F, if rest == [] then f.F else Finish(f.F, rest[0].len, w))
  }

  /** `who` is eligible, and nobody eligible finishes earlier. */
  ghost predicate Picked(flows: Flows, V: int, who: nat)
  {
    && Eligible(flows, V, who)
    && forall q :: Eligible(flows, V, q) ==> flows[who].F <= flows[q].F
  }

  /** `s` is `before` with V bumped and the eligible flows moved, and the packet `m` taken from
      it is the head of the right flow. */
  ghost predicate PickState(before: State, s: State, who: nat, m: Packet)
  {
    && Inv(s) && s.flows == before.flows && s.weight == before.weight && s.invWsum == before.invWsum
    && Bumped(s.flows, before.V, s.V)
    && ServeReady(s, who) && m == s.flows[who].mq[0] && Picked(s.flows, before.V, who)
  }

  ghost predicate ServeReady(s: State, q: nat)
  {
    q in s.flows && q in s.weight && s.weight[q] > 0 && s.flows[q].mq != []
  }

  /** The whole effect of a successful wf2qp_dequeue on the state: one idle flow of the past is
      forgotten, the flow that is eligible and finishes first loses its head and gets its next
      timestamps, and V advances by the packet's length over the sum of weights, bumped before and
      after so that somebody is eligible. */
  ghost predicate Service(s: State, mid: Flows, v: int, who: nat, m: Packet, t: State)
  {
    && Picked(s.flows, s.V, who) && m == s.flows[who].mq[0]
    && ForgotOne(s.flows, mid, s.V) && Forgetting(s.flows, mid) && Backlogged(mid, who)
    && t.weight == s.weight && who in t.weight && t.weight[who] > 0
    && t.flows == mid[who := NextFlow(mid[who], t.weight[who])]
    && Bumped(mid, s.V, v) && Bumped(t.flows, v + m.len * t.invWsum, t.V)
  }

  lemma ServiceOf(s: State, s0: State, s1: State, who: nat, m: Packet, t: State)
    requires ForgotOne(s.flows, s0.flows, s.V) && Forgetting(s.flows, s0.flows) && s0.weight == s.weight && s0.V == s.V
    requires PickState(s0, s1, who, m) && AfterServe(s1, who, t)
    ensures Service(s, s0.flows, s1.V, who, m, t) && t.weight == s.weight
    ensures Backlogged(s0.flows, who) && m == s0.flows[who].mq[0]
    ensures exists f: Flow :: f.mq == s0.flows[who].mq[1..] && t.flows == s0.flows[who := f]
  {
    hide Bumped, ForgotOne, Forgetting, Picked, Inv, Finish;
    PickedBefore(s.flows, s0.flows, s.V, who);
  }

  lemma ForgettingQueues(flows: Flows, mid: Flows)
    requires Forgetting(flows, mid)
    ensures forall q :: Backlogged(flows, q) <==> Backlogged(mid, q)
  {
  }

  ghost predicate IsServed(s: State, q: nat, t: State)
  {
    ServeReady(s, q) && t == ServeState(s, q)
  }

  /** `t` is `s` after `q` was served, V bumped once more and the eligible flows moved. */
  ghost predicate AfterServe(s: State, q: nat, t: State)
  {
    && ServeReady(s, q)
    && t.flows == s.flows[q := NextFlow(s.flows[q], s.weight[q])] && t.weight == s.weight && t.invWsum == s.invWsum
    && Bumped(t.flows, s.V + s.flows[q].mq[0].len * s.invWsum, t.V)
  }

  lemma ServedThenMoved(s: State, q: nat, u: State, t: State)
    requires IsServed(s, q, u) && t == u.(V := t.V, sch := t.sch, ne := t.ne) && Bumped(t.flows, u.V, t.V)
    ensures AfterServe(s, q, t)
  {
    hide Bumped, Finish;
  }

  lemma SomeEligible(s: State)
    requires Inv(s) && exists q :: Backlogged(s.flows, q)
    ensures s.sch != map[]
  {
    var q :| Backlogged(s.flows, q);
    assert FlowOk(s.flows[q], s.weight[q], s.PlaceOf(q), s.V);
  }

  lemma InvIsLoose(s: State)
    requires Inv(s)
    ensures Loose(s)
  {
  }

  lemma NothingQueued(s: State)
    requires Inv(s) && s.sch == map[] && s.ne == map[]
    ensures forall q :: !Backlogged(s.flows, q)
  {
    forall q
      ensures !Backlogged(s.flows, q)
    {
      if q in s.flows {
        assert FlowOk(s.flows[q], s.weight[q], s.PlaceOf(q), s.V);
      }
    }
  }

  lemma SomethingQueued(s: State)
    requires Inv(s)
    ensures s.sch != map[] || s.ne != map[] ==> exists q :: Backlogged(s.flows, q)
  {
    if s.sch != map[] || s.ne != map[] {
      var q :| q in s.sch.Keys + s.ne.Keys;
      assert FlowOk(s.flows[q], s.weight[q], s.PlaceOf(q), s.V);
      assert Backlogged(s.flows, q);
    }
  }

  /** With all heaps empty the sum of weights is already 0 and no timestamp is valid. */
  lemma ResetKeepsInv(s: State)
    requires Inv(s) && s.sch == map[] && s.ne == map[] && s.idle == map[]
    ensures s.wsum == 0 && Inv(s.(V := 0)) && forall q :: q in s.flows ==> Unknown(s.flows[q])
  {
    var t := s.(V := 0);
    forall q | q in s.flows
      ensures FlowOk(t.flows[q], t.weight[q], t.PlaceOf(q), 0) && Unknown(s.flows[q])
    {
      assert FlowOk(s.flows[q], s.weight[q], s.PlaceOf(q), s.V);
    }
    assert s.Known() == {} == t.Known();
  }

  /** sch holds exactly the eligible flows, so its top is the right choice. */
  lemma PickedByTop(s: State, V: int, who: nat)
    requires Inv(s) && Bumped(s.flows, V, s.V)
    requires who in s.sch && forall q :: q in s.sch ==> s.sch[who] <= s.sch[q]
    ensures Picked(s.flows, V, who)
  {
    hide Bumped, SumOf, Inverse;
    forall q
      ensures Eligible(s.flows, V, q) <==> q in s.sch
      ensures q in s.sch ==> s.sch[q] == s.flows[q].F
    {
      EligibleIffBelow(s.flows, V, s.V, q);
      if q in s.flows {
        assert FlowOk(s.flows[q], s.weight[q], s.PlaceOf(q), s.V);
      }
    }
  }

  /** Forgetting idle flows does not affect the choice. */
  lemma PickedBefore(flows: Flows, mid: Flows, V: int, who: nat)
    requires Forgetting(flows, mid) && Picked(mid, V, who)
    ensures Picked(flows, V, who) && flows[who] == mid[who]
  {
    forall q
      ensures Backlogged(flows, q) <==> Backlogged(mid, q)
      ensures Backlogged(flows, q) ==> flows[q] == mid[q]
    {
    }
    assert forall q :: Eligible(flows, V, q) <==> Eligible(mid, V, q);
  }

  lemma InitialInv()
    ensures Inv(State(map[], map[], map[], map[], map[], 0, 0, 0))
  {
  }

  /** A change of timestamps leaves the packet history alone. */
  lemma FifoKept(arrived: map<nat, seq<Packet>>, served: map<nat, seq<Packet>>, flows: Flows, q: nat, f: Flow)
    requires Fifo(arrived, served, flows) && q in flows && f.mq == flows[q].mq
    ensures Fifo(arrived, served, flows[q := f])
  {
  }

  /** `flows'` has the queues of `flows`, but `mq` for `q`. */
  ghost predicate Requeued(flows: Flows, q: nat, mq: seq<Packet>, flows': Flows)
  {
    && flows'.Keys == flows.Keys + {q}
    && forall r :: r in flows' ==> flows'[r].mq == if r == q then mq else flows[r].mq
  }

  lemma FifoForgetting(arrived: map<nat, seq<Packet>>, served: map<nat, seq<Packet>>, flows: Flows, flows': Flows)
    requires Fifo(arrived, served, flows) && Forgetting(flows, flows')
    ensures Fifo(arrived, served, flows')
  {
  }

  lemma InFifo(arrived: map<nat, seq<Packet>>, served: map<nat, seq<Packet>>, flows: Flows, q: nat)
    requires Fifo(arrived, served, flows) && q in flows
    ensures q in arrived && q in served
  {
  }

  lemma NextStarts(f: Flow, w: nat)
    requires f.mq != [] && w > 0
    ensures NextFlow(f, w).S == f.F && NextFlow(f, w).mq == f.mq[1..]
  {
  }

  lemma FifoServed(arrived: map<nat, seq<Packet>>, served: map<nat, seq<Packet>>, flows: Flows, mid: Flows, q: nat, flows': Flows)
    requires Fifo(arrived, served, flows) && Forgetting(flows, mid) && Backlogged(mid, q)
    requires exists f: Flow :: f.mq == mid[q].mq[1..] && flows' == mid[q := f]
    ensures q in served && Fifo(arrived, served[q := served[q] + [mid[q].mq[0]]], flows')
  {
  }

  lemma ActivateQueues(s: State, q: nat, mq: seq<Packet>)
    requires q in s.flows && q in s.weight && s.weight[q] > 0 && mq != []
    ensures Requeued(s.flows, q, mq, ActivateState(s, q, mq).flows)
  {
  }

  lemma AppendQueues(s: State, q: nat, m: Packet)
    requires Loose(s) && q in s.flows && s.flows[q].mq != []
    ensures q in AppendState(s, q, m).flows && Requeued(s.flows, q, s.flows[q].mq + [m], AppendState(s, q, m).flows)
  {
  }

  lemma FifoAppend(arrived: map<nat, seq<Packet>>, served: map<nat, seq<Packet>>, flows: Flows, q: nat, m: Packet, flows': Flows)
    requires Fifo(arrived, served, flows) && q in flows && Requeued(flows, q, flows[q].mq + [m], flows')
    ensures Fifo(arrived[q := arrived[q] + [m]], served, flows')
  {
  }

  lemma FifoNew(arrived: map<nat, seq<Packet>>, served: map<nat, seq<Packet>>, flows: Flows, q: nat, mq: seq<Packet>, flows': Flows)
    requires Fifo(arrived, served, flows) && q !in flows && Requeued(flows, q, mq, flows')
    ensures Fifo(arrived[q := mq], served[q := []], flows')
  {
  }

  class Scheduler {
    const cells: H.Offsets
    const sch: H.Heap
    const ne: H.Heap
    const idle: H.Heap
    var V: int
    var wsum: int
    var invWsum: int
    var flows: Flows
    var weight: map<nat, nat>
    ghost var arrived: map<nat, seq<Packet>>  // every packet ever accepted, per flow
    ghost var served: map<nat, seq<Packet>>   // every packet ever returned, per flow
    ghost var base: map<nat, Base>

    /** The three heaps are intact, separate in memory, and share no flow. */
    ghost predicate Heaps()
      reads cells, sch, ne, idle, sch.p, ne.p, idle.p
    {
      && sch.cells == ne.cells == idle.cells == cells
      && sch != ne && ne != idle && sch != idle
      && sch.p != ne.p && ne.p != idle.p && sch.p != idle.p
      && sch.Valid() && ne.Valid() && idle.Valid()
      && sch.contents.Keys !! ne.contents.Keys && ne.contents.Keys !! idle.contents.Keys
      && sch.contents.Keys !! idle.contents.Keys
    }

    ghost function St(): State
      reads this, sch, ne, idle
    {
      State(flows, weight, sch.contents, ne.contents, idle.contents, V, wsum, invWsum)
    }

    ghost predicate Valid()
      reads this, cells, sch, ne, idle, sch.p, ne.p, idle.p
    {
      && Heaps() && Fifo(arrived, served, flows) && Paid(base, served, flows, weight)
      && Inv(St())
    }

    /** What a flow has been served since it became backlogged last is what its start time has grown by is worth. */
    lemma ServiceLaw(q: nat)
      requires Valid() && Backlogged(flows, q)
      ensures q in base && q in served && q in weight && base[q].sent <= |served[q]|
      ensures var bytes := Bytes(served[q][base[q].sent..]);
              weight[q] * (flows[q].S - base[q].S) <= bytes * 0x1000_0000 <= weight[q] * (flows[q].S - base[q].S) + bytes * weight[q]
    {
      hide Inv, H.Heap.Sound;
    }

    /** The time between start and finish of a flow is what its head packet is worth. */
    lemma HeadLaw(q: nat)
      requires Valid() && Backlogged(flows, q)
      ensures q in weight
      ensures var f, w, len := flows[q], weight[q], flows[q].mq[0].len;
              w * (f.F - f.S) <= len * 0x1000_0000 < w * (f.F - f.S) + len * w + 1
    {
      hide Loose, Heaps;
      HeadWorth(St(), q);
    }

    /** Of two flows that start together with packets of one length, a lighter one finishes no earlier. */
    lemma WeightLaw(q: nat, r: nat)
      requires Valid() && Backlogged(flows, q) && Backlogged(flows, r)
      requires flows[q].S == flows[r].S && flows[q].mq[0].len == flows[r].mq[0].len && flows[q].F < flows[r].F
      ensures q in weight && r in weight && weight[r] < weight[q]
    {
      hide Heaps, Finish;
      FlowOf(St(), q);
      FlowOf(St(), r);
      if weight[q] <= weight[r] {
        HeavierFirst(flows[q].S, flows[q].mq[0].len, weight[q], weight[r]);
        assert false;
      }
    }

    /** A packet moves the virtual time by its length over the sum of the weights. */
    lemma SumLaw()
      requires Valid() && wsum > 0
      ensures wsum * invWsum <= 0x1000_0000 < wsum * invWsum + wsum
    {
      hide Heaps, FlowsOk;
      InverseIs(wsum);
    }

    ghost function Repr(): set<object>
      reads this, sch, ne, idle
    {
      {this, cells, sch, ne, idle, sch.p, ne.p, idle.p}
    }

    /** wf2qp_new_sched. */
    constructor ()
      ensures Valid() && fresh(Repr())
      ensures flows == map[] && V == 0
    {
      hide H.Heap.Sound, Inv;
      InitialInv();
      var c := new H.Offsets();
      cells := c;
      idle := new H.Heap(16, c);
      sch := new H.Heap(16, c);
      ne := new H.Heap(16, c);
      V, wsum, invWsum := 0, 0, 0;
      flows, weight := map[], map[];
      arrived, served, base := map[], map[], map[];
    }

    /** heap_insert into one of the three heaps. */
    method Push(h: H.Heap, key: int, q: nat)
      requires Heaps() && h in {sch, ne, idle}
      requires q !in sch.contents && q !in ne.contents && q !in idle.contents
      modifies h, h.p, cells
      ensures Heaps() && (h.p == old(h.p) || fresh(h.p))
      ensures h.contents == old(h.contents)[q := key] && h.elements == old(h.elements) + 1
      ensures forall g :: g in {sch, ne, idle} && g != h ==> g.contents == old(g.contents) && g.elements == old(g.elements)
    {
      hide H.Heap.Sound;
      h.Insert(key, q);
    }

    /** heap_extract from one of the three heaps: its top, or `which`. */
    method Pop(h: H.Heap, which: Option<nat>) returns (ghost gone: nat)
      requires Heaps() && h in {sch, ne, idle} && h.elements > 0
      requires which.Some? ==> which.value in h.contents
      modifies h`elements, h`slot, h`contents, h.p, cells
      ensures Heaps()
      ensures gone in old(h.contents) && gone == if which.Some? then which.value else old(h.Top().obj)
      ensures h.contents == old(h.contents) - {gone} && h.elements == old(h.elements) - 1
      ensures forall g :: g in {sch, ne, idle} && g != h ==> g.contents == old(g.contents) && g.elements == old(g.elements)
    {
      hide H.Heap.Sound;
      gone := if which.Some? then which.value else h.Top().obj;
      h.Extract(which);
    }

    /** The body of idle_check's loop: forget the idle flow with the smallest timestamp. */
    method ForgetTop() returns (ghost q: nat)
      requires Valid() && idle.elements > 0
      modifies `wsum, `invWsum, `flows, idle`elements, idle`slot, idle`contents, idle.p, cells
      ensures Valid()
      ensures Idle(old(flows), q) && flows == old(flows)[q := Forget(old(flows[q]))]
      ensures old(flows[q].F) == old(idle.Top().key)
      ensures forall r :: Idle(old(flows), r) ==> old(flows[q].F) <= old(flows)[r].F
      ensures idle.contents == old(idle.contents) - {q} && idle.elements == old(idle.elements) - 1
      ensures sch.contents == old(sch.contents) && ne.contents == old(ne.contents)
      ensures sch.elements == old(sch.elements) && ne.elements == old(ne.elements)
    {
      hide H.Heap.Sound, Inv, Fifo, Paid;
      var x := idle.Top().obj;
      q := x;
      AboutIdleTop();
      ForgetKeepsInv(St(), x);
      FifoKept(arrived, served, flows, x, Forget(flows[x]));
      PaidKept(base, served, flows, weight, x, Forget(flows[x]));
      ghost var gone := Pop(idle, None);
      flows := flows[x := Forget(flows[x])];
      wsum := wsum - weight[x];
      if wsum > 0 {
        invWsum := Inverse(wsum);
      }
      assert St() == ForgetState(old(St()), x);
    }

    lemma AboutIdleTop()
      requires Heaps() && Inv(St()) && idle.elements > 0
      ensures var top := idle.Top();
              && Idle(flows, top.obj) && flows[top.obj].F == top.key
              && top.obj in idle.contents && top.obj in weight
              && forall r :: Idle(flows, r) ==> top.key <= flows[r].F
    {
      hide H.Heap.Sound, FlowsOk;
      forall r ensures Idle(flows, r) ==> r in idle.contents && idle.contents[r] == flows[r].F {
        IdleIffInHeap(St(), r);
      }
      IdleIffInHeap(St(), idle.Top().obj);
    }

    /** What the top of the idle heap says about the flows that are idle. */
    lemma IdleLeft()
      requires Valid()
      ensures forall r :: Idle(flows, r) ==> idle.elements > 0 && idle.Top().key <= flows[r].F
    {
      hide H.Heap.Sound, Loose, Fifo;
      if idle.elements == 0 {
        idle.Emptiness();
        forall r { IdleIffInHeap(St(), r); }
      } else {
        AboutIdleTop();
      }
    }

    /** idle_check: forget the `n` oldest idle flows, or all there are, and those in the past only if it
        is not forced. */
    method IdleCheck(n: nat, force: bool) returns (ghost gone: set<nat>)
      requires Valid()
      modifies `wsum, `invWsum, `flows, idle`elements, idle`slot, idle`contents, idle.p, cells
      ensures Valid()
      ensures Forgetting(old(flows), flows) && Drained(old(flows), flows, gone, force, V)
      ensures |gone| == n || (|gone| < n && forall r :: Idle(flows, r) ==> !force && V <= flows[r].F)
      ensures sch.contents == old(sch.contents) && ne.contents == old(ne.contents)
      ensures force && n >= old(idle.elements) ==> idle.elements == 0
      ensures !force && n == 1 ==> ForgotOne(old(flows), flows, V)
    {
      hide H.Heap.Sound, Inv, Fifo, Paid, ForgotOne, Forgetting, Drained;
      var left := n;
      gone := {};
      DrainedNone(flows, force, V);
      while left > 0 && idle.elements > 0 && (force || idle.Top().key < V)
        invariant Valid() && 0 <= left <= n && |gone| == n - left
        invariant Drained(old(flows), flows, gone, force, V)
        invariant sch.contents == old(sch.contents) && ne.contents == old(ne.contents)
        invariant idle.elements == old(idle.elements) - (n - left)
        decreases left
      {
        ghost var was := flows;
        ghost var q := ForgetTop();
        DrainedStep(old(flows), was, gone, force, V, q);
        gone := gone + {q};
        left := left - 1;
      }
      IdleLeft();
      DrainedForgets(old(flows), flows, gone, force, V);
      if n == 1 && !force {
        DrainedOne(old(flows), flows, gone, V);
      }
    }

    lemma Counts()
      requires Heaps()
      ensures sch.elements == 0 <==> sch.contents == map[]
      ensures ne.elements == 0 <==> ne.contents == map[]
      ensures idle.elements == 0 <==> idle.contents == map[]
    {
      hide H.Heap.Sound;
      sch.Emptiness();
      ne.Emptiness();
      idle.Emptiness();
    }

    /** The new start time of a flow that was idle or unknown; it leaves the idle heap. */
    method StartTime(q: nat) returns (S: int)
      requires Heaps() && q in flows && q in weight && weight[q] > 0 && wsum >= 0
      requires q !in sch.contents && q !in ne.contents && (q in idle.contents <==> !Unknown(flows[q]))
      modifies `wsum, `invWsum, idle`elements, idle`slot, idle`contents, idle.p, cells
      ensures Heaps()
      ensures S == if Unknown(flows[q]) then V else Max(flows[q].F, V)
      ensures idle.contents == old(idle.contents) - {q}
      ensures sch.contents == old(sch.contents) && ne.contents == old(ne.contents)
      ensures wsum == if Unknown(flows[q]) then old(wsum) + weight[q] else old(wsum)
      ensures invWsum == if Unknown(flows[q]) then Inverse(wsum) else old(invWsum)
    {
      hide H.Heap.Sound, Inverse;
      if Unknown(flows[q]) {
        S := V;
        wsum := wsum + weight[q];
        invWsum := Inverse(wsum);
        assert idle.contents == idle.contents - {q};
      } else {
        idle.Emptiness();
        ghost var gone := Pop(idle, Some(q));
        S := Max(flows[q].F, V);
      }
    }

    /** The choice of a heap at the end of wf2qp_enqueue. */
    method Settle(q: nat, S: int, F: int)
      requires Heaps() && q !in sch.contents && q !in ne.contents && q !in idle.contents
      requires V < S ==> sch.contents != map[]
      modifies sch, sch.p, ne, ne.p, cells
      ensures Heaps() && (sch.p == old(sch.p) || fresh(sch.p)) && (ne.p == old(ne.p) || fresh(ne.p))
      ensures sch.contents == if V < S then old(sch.contents) else old(sch.contents)[q := F]
      ensures ne.contents == if V < S then old(ne.contents)[q := S] else old(ne.contents)
      ensures idle.contents == old(idle.contents)
    {
      hide H.Heap.Sound;
      if V < S {
        sch.Emptiness();
        if sch.elements == 0 {
          assert false;  // "ouch! not eligible but empty scheduler"
        }
        Push(ne, S, q);
      } else {
        Push(sch, F, q);
      }
    }

    /** The part of wf2qp_enqueue that runs when `q`'s first packets arrive. */
    method Activate(q: nat, mq: seq<Packet>)
      requires Heaps() && Inv(St()) && q in flows && flows[q].mq == [] && mq != []
      modifies Repr()
      ensures Heaps() && fresh(Repr() - old(Repr())) && Inv(St())
      ensures St() == ActivateState(old(St()), q, mq) && weight == old(weight)
      ensures arrived == old(arrived) && served == old(served) && base == old(base)
    {
      hide H.Heap.Sound, Heaps, Inv, Fifo, SumOf, Inverse, Finish;
      ActivateKeepsInv(St(), q, mq);
      var S := StartTime(q);
      Counts();
      var F := Finish(S, mq[0].len, weight[q]);
      flows := flows[q := Flow(mq, S, F)];
      if ne.elements == 0 && sch.elements == 0 {
        V := Max(S, V);
      }
      Settle(q, S, F);
      assert St() == ActivateState(old(St()), q, mq);
    }

    /** wf2qp_enqueue for a packet that is not dropped. */
    method Arrive(q: nat, m: Packet)
      requires Heaps() && Inv(St()) && q in flows
      modifies Repr()
      ensures Heaps() && Inv(St()) && fresh(Repr() - old(Repr()))
      ensures arrived == old(arrived) && served == old(served) && base == old(base) && weight == old(weight)
      ensures old(flows[q].mq) != [] ==> St() == AppendState(old(St()), q, m)
      ensures old(flows[q].mq) == [] ==> q in old(weight) && old(weight[q]) > 0 && St() == ActivateState(old(St()), q, [m])
    {
      hide H.Heap.Sound, Heaps, Inv, ActivateState;
      if flows[q].mq != [] {
        AppendKeepsInv(St(), q, m);
        flows := flows[q := flows[q].(mq := flows[q].mq + [m])];
      } else {
        QuietPlaceInv(St(), q);
        Activate(q, [m]);
      }
    }

    /** What the history becomes when `q` has got a packet. */
    ghost method Record(q: nat, m: Packet, was: State)
      requires Heaps() && Inv(St()) && Fifo(arrived, served, was.flows) && Paid(base, served, was.flows, was.weight) && Loose(was)
      requires q in was.flows && weight == was.weight
      requires was.flows[q].mq != [] ==> St() == AppendState(was, q, m)
      requires was.flows[q].mq == [] ==> q in weight && weight[q] > 0 && St() == ActivateState(was, q, [m])
      modifies `arrived, `base
      ensures Valid() && arrived == old(arrived)[q := old(arrived[q]) + [m]]
      ensures was.flows[q].mq != [] ==> base == old(base)
      ensures was.flows[q].mq == [] ==> base == old(base)[q := Base(flows[q].S, |served[q]|)] && StartsAt(was.flows, was.V, q, flows, V)
    {
      hide H.Heap.Sound, Inv, Loose, ActivateState, Fifo, Paid, StartsAt, Requeued;
      InFifo(arrived, served, was.flows, q);
      arrived := arrived[q := arrived[q] + [m]];
      if was.flows[q].mq == [] {
        ActivateQueues(was, q, [m]);
        ActivateTimes(was, q, [m]);
        PaidStart(base, served, was.flows, weight, q, flows[q]);
        base := base[q := Base(flows[q].S, |served[q]|)];
      } else {
        AppendQueues(was, q, m);
        PaidAppend(base, served, was.flows, weight, q, m);
      }
      FifoAppend(old(arrived), served, was.flows, q, m, flows);
    }

    /** wf2qp_enqueue; `drop` is the verdict of dn_enqueue. True means the packet was dropped. */
    method Enqueue(q: nat, m: Packet, drop: bool) returns (dropped: bool)
      requires Valid() && q in flows
      modifies Repr()
      ensures Valid() && fresh(Repr() - old(Repr()))
      ensures dropped == drop && served == old(served) && weight == old(weight)
      ensures drop ==> St() == old(St()) && arrived == old(arrived) && base == old(base)
      ensures !drop ==> arrived == old(arrived)[q := old(arrived[q]) + [m]]
      ensures !drop && old(flows[q].mq) != [] ==> St() == AppendState(old(St()), q, m) && base == old(base)
      ensures !drop && old(flows[q].mq) == [] ==>
                && St() == ActivateState(old(St()), q, [m]) && StartsAt(old(flows), old(V), q, flows, V)
                && base == old(base)[q := Base(flows[q].S, |served[q]|)]
    {
      hide H.Heap.Sound, Heaps, Inv, ActivateState, Fifo, Paid, StartsAt;
      if drop {
        return true;
      }
      dropped := false;
      ghost var was := St();
      InvIsLoose(was);
      Arrive(q, m);
      Record(q, m, was);
    }

    /** A flow without packets, unknown to the heaps. */
    method Register(q: nat, w: nat)
      requires Heaps() && Inv(St()) && q !in flows && w > 0
      modifies `flows, `weight
      ensures Heaps() && Inv(St()) && St() == NewState(old(St()), q, w)
    {
      hide H.Heap.Sound, Heaps, Inv;
      NewKeepsInv(St(), q, w);
      flows := flows[q := Flow([], 1, 0)];
      weight := weight[q := w];
    }

    /** wf2qp_new_queue, but for the history. */
    method Enrol(q: nat, mq: seq<Packet>, w: nat)
      requires Heaps() && Inv(St()) && q !in flows && w > 0
      modifies Repr()
      ensures Heaps() && Inv(St()) && fresh(Repr() - old(Repr()))
      ensures arrived == old(arrived) && served == old(served) && base == old(base)
      ensures var s := NewState(old(St()), q, w);
              && Inv(s) && s.flows == old(flows)[q := Flow([], 1, 0)] && s.weight == old(weight)[q := w] && s.V == old(V)
              && St() == if mq == [] then s else ActivateState(s, q, mq)
    {
      hide H.Heap.Sound, Heaps, Inv, ActivateState;
      Register(q, w);
      if mq != [] {
        Activate(q, mq);
      }
    }

    /** What the history becomes with a new queue. */
    ghost method RecordNew(q: nat, mq: seq<Packet>, was: Flows, weighed: map<nat, nat>)
      requires Heaps() && Inv(St()) && Fifo(arrived, served, was) && Paid(base, served, was, weighed) && q !in was
      requires q in flows && flows == was[q := flows[q]] && flows[q].mq == mq && q in weight && weight == weighed[q := weight[q]]
      modifies `arrived, `served, `base
      ensures Valid() && arrived == old(arrived)[q := mq] && served == old(served)[q := []] && base == old(base)[q := Base(flows[q].S, 0)]
    {
      hide H.Heap.Sound, Inv, Fifo, Paid;
      PaidNew(base, served, was, weighed, q, flows[q], weight[q]);
      FifoNew(arrived, served, was, q, mq, flows);
      arrived, served, base := arrived[q := mq], served[q := []], base[q := Base(flows[q].S, 0)];
    }

    /** wf2qp_new_queue, for a queue that may already hold packets. */
    method NewQueue(q: nat, mq: seq<Packet>, w: nat)
      requires Valid() && q !in flows && w > 0
      modifies Repr()
      ensures Valid() && fresh(Repr() - old(Repr()))
      ensures arrived == old(arrived)[q := mq] && served == old(served)[q := []] && weight == old(weight)[q := w]
      ensures q in flows && flows == old(flows)[q := flows[q]] && flows[q].mq == mq && base == old(base)[q := Base(flows[q].S, 0)]
      ensures mq != [] ==> flows[q].S == old(V)
      ensures var s := NewState(old(St()), q, w); St() == if mq == [] then s else ActivateState(s, q, mq)
    {
      hide H.Heap.Sound, Heaps, Inv, Loose, ActivateState, Fifo, Paid, NewState;
      ghost var was, weighed, s := flows, weight, NewState(St(), q, w);
      Enrol(q, mq, w);
      InvIsLoose(s);
      if mq != [] {
        ActivateTimes(s, q, mq);
      }
      RecordNew(q, mq, was, weighed);
    }

    /** HEAP_TOP(neh). */
    function NeTop(): (e: H.Entry)
      requires Heaps() && ne.elements > 0
      reads cells, sch, ne, idle, sch.p, ne.p, idle.p
      ensures e.obj in ne.contents && ne.contents[e.obj] == e.key
      ensures forall o :: o in ne.contents ==> e.key <= ne.contents[o]
    {
      ne.Top()
    }

    /** V = max(V, min S) when no flow is in sch. */
    method BumpV()
      requires Heaps() && Loose(St())
      modifies `V
      ensures Loose(St()) && Bumped(flows, old(V), V)
      ensures sch.contents == map[] && ne.contents != map[] ==> ne.elements > 0 && NeTop().key <= V
    {
      hide H.Heap.Sound, Loose;
      Counts();
      if sch.elements == 0 && ne.elements > 0 {
        RaiseKeepsLoose(St(), Max(V, NeTop().key));
        BumpedByTop(St(), NeTop().obj);
        V := Max(V, NeTop().key);
      } else {
        BumpedNot(St());
      }
    }

    /** Move the top of ne to sch. */
    method MoveTop()
      requires Heaps() && Loose(St()) && ne.elements > 0 && NeTop().key <= V
      modifies sch, sch.p, ne`elements, ne`slot, ne`contents, ne.p, cells
      ensures Heaps() && Loose(St()) && (sch.p == old(sch.p) || fresh(sch.p))
      ensures old(NeTop().obj) in flows && St() == MoveState(old(St()), old(NeTop().obj))
      ensures ne.elements == old(ne.elements) - 1
      ensures sch.contents != map[]
    {
      hide H.Heap.Sound, Loose;
      var q := NeTop().obj;
      MoveKeepsLoose(St(), q);
      ghost var gone := Pop(ne, None);
      Push(sch, flows[q].F, q);
    }

    /** Raise V to the smallest start time if nobody is eligible, then move every flow that has
        become eligible from ne to sch: the first half of the loop body of wf2qp_dequeue. */
    method MakeEligible()
      requires Heaps() && Loose(St())
      modifies `V, sch, sch.p, ne`elements, ne`slot, ne`contents, ne.p, cells
      ensures Heaps() && Inv(St()) && (sch.p == old(sch.p) || fresh(sch.p))
      ensures Bumped(flows, old(V), V)
      ensures idle.contents == old(idle.contents)
    {
      hide H.Heap.Sound, Heaps, Loose, Bumped;
      BumpV();
      ghost var v := V;
      Counts();
      while ne.elements > 0 && NeTop().key <= V
        invariant Heaps() && Loose(St()) && (sch.p == old(sch.p) || fresh(sch.p))
        invariant V == v && idle.contents == old(idle.contents)
        invariant sch.contents == map[] && ne.contents != map[] ==> ne.elements > 0 && NeTop().key <= V
        decreases ne.elements
      {
        MoveTop();
      }
      Counts();
    }

    /** HEAP_TOP(sch). */
    function SchTop(): (e: H.Entry)
      requires Heaps() && sch.elements > 0
      reads cells, sch, ne, idle, sch.p, ne.p, idle.p
      ensures e.obj in sch.contents && sch.contents[e.obj] == e.key
      ensures forall o :: o in sch.contents ==> e.key <= sch.contents[o]
    {
      sch.Top()
    }

    /** Put the flow just served where its new timestamps belong. */
    method Resettle(q: nat, backlogged: bool, S: int, F: int)
      requires Heaps() && q !in sch.contents && q !in ne.contents && q !in idle.contents
      modifies sch, sch.p, ne, ne.p, idle, idle.p, cells
      ensures Heaps() && fresh(Repr() - old(Repr()))
      ensures sch.contents == if backlogged && S <= V then old(sch.contents)[q := F] else old(sch.contents)
      ensures ne.contents == if backlogged && V < S then old(ne.contents)[q := S] else old(ne.contents)
      ensures idle.contents == if !backlogged then old(idle.contents)[q := S] else old(idle.contents)
    {
      hide H.Heap.Sound;
      if !backlogged {
        Push(idle, S, q);
      } else if S <= V {
        Push(sch, F, q);
      } else {
        Push(ne, S, q);
      }
    }

    /** The second half of the loop body: serve the top of sch. */
    method ServeTop() returns (m: Packet, ghost who: nat)
      requires Heaps() && Inv(St()) && sch.elements > 0
      modifies Repr()
      ensures Heaps() && Loose(St()) && fresh(Repr() - old(Repr()))
      ensures who == old(SchTop().obj) && who in old(sch.contents) && who in weight && weight[who] > 0
      ensures Backlogged(old(flows), who) && m == old(flows[who].mq[0])
      ensures St() == ServeState(old(St()), who) && weight == old(weight)
      ensures arrived == old(arrived) && served == old(served) && base == old(base)
    {
      hide H.Heap.Sound, Heaps, Inv, Loose, Finish;
      var q := SchTop().obj;
      who := q;
      ServeKeepsInv(St(), q);
      var f := flows[q];
      m := f.mq[0];
      ghost var gone := PopSch();
      V := V + m.len * invWsum;
      var rest := f.mq[1..];
      var S := f.F;
      var F := if rest == [] then S else Finish(S, rest[0].len, weight[q]);
      flows := flows[q := Flow(rest, S, F)];
      Resettle(q, rest != [], S, F);
      assert St() == ServeState(old(St()), q);
    }

    method PopSch() returns (ghost gone: nat)
      requires Heaps() && sch.elements > 0
      modifies sch`elements, sch`slot, sch`contents, sch.p, cells
      ensures Heaps() && gone in old(sch.contents) && gone == old(SchTop().obj)
      ensures gone !in ne.contents && gone !in idle.contents
      ensures sch.contents == old(sch.contents) - {gone}
      ensures ne.contents == old(ne.contents) && idle.contents == old(idle.contents)
    {
      hide H.Heap.Sound;
      gone := Pop(sch, None);
    }

    /** The for(;;) loop of wf2qp_dequeue: two passes of MakeEligible around one ServeTop.
        `s` is the state in which the flow was picked. */
    method ServeOne() returns (m: Option<Packet>, ghost who: nat, ghost s: State)
      requires Heaps() && Inv(St()) && exists q :: Backlogged(flows, q)
      modifies Repr()
      ensures Heaps() && Inv(St()) && fresh(Repr() - old(Repr()))
      ensures arrived == old(arrived) && served == old(served) && base == old(base)
      ensures m != None && PickState(old(St()), s, who, m.value)
      ensures AfterServe(s, who, St())
    {
      hide H.Heap.Sound, Heaps, Inv, Loose, Bumped, PickState, AfterServe, IsServed, Backlogged;
      m, who, s := None, 0, St();
      InvIsLoose(s);
      while true
        invariant Heaps() && Loose(St()) && fresh(Repr() - old(Repr()))
        invariant arrived == old(arrived) && served == old(served) && base == old(base)
        invariant m == None ==> St() == old(St())
        invariant m != None ==> PickState(old(St()), s, who, m.value) && IsServed(s, who, St())
        decreases m == None
      {
        ghost var before := St();
        MakeEligible();
        if m != None {
          ServedThenMoved(s, who, before, St());
          break;
        }
        m, who, s := ServeOnce(before);
      }
    }

    /** One ServeTop, with the choice it makes. */
    method ServeOnce(ghost before: State) returns (m: Option<Packet>, ghost who: nat, ghost s: State)
      requires Heaps() && Inv(St()) && exists q :: Backlogged(flows, q)
      requires St() == before.(V := V, sch := sch.contents, ne := ne.contents) && Bumped(flows, before.V, V)
      modifies Repr()
      ensures Heaps() && Loose(St()) && fresh(Repr() - old(Repr()))
      ensures arrived == old(arrived) && served == old(served) && base == old(base)
      ensures m != None && PickState(before, s, who, m.value) && IsServed(s, who, St())
    {
      hide H.Heap.Sound, Heaps, Inv, Loose, Bumped, Picked, ServeState;
      s := St();
      SomeEligible(s);
      Counts();
      ghost var top := SchTop();
      var p;
      p, who := ServeTop();
      PickedByTop(s, before.V, who);
      m := Some(p);
    }

    /** wf2qp_dequeue when nothing is queued. */
    method Drain()
      requires Valid() && idle.elements <= INT_MAX && forall q :: !Backlogged(flows, q)
      requires sch.elements == 0 && ne.elements == 0
      modifies `V, `wsum, `invWsum, `flows, idle`elements, idle`slot, idle`contents, idle.p, cells
      ensures Valid() && V == 0 && wsum == 0 && Forgetting(old(flows), flows) && forall q :: q in flows ==> Unknown(flows[q])
    {
      hide H.Heap.Sound, Heaps, Inv, Loose, Fifo, Paid, ForgotOne, Forgetting, Drained;
      ghost var gone := IdleCheck(INT_MAX, true);
      Counts();
      ResetKeepsInv(St());
      FifoForgetting(arrived, served, old(flows), flows);
      PaidForgetting(base, served, old(flows), weight, flows);
      V := 0;
      assert wsum == 0;
      wsum := 0;
    }

    /** wf2qp_dequeue when something is queued, but for the history. */
    method ServeFlow() returns (m: Packet, ghost who: nat, ghost mid: Flows, ghost v: int)
      requires Valid() && idle.elements <= INT_MAX && exists q :: Backlogged(flows, q)
      modifies Repr()
      ensures Heaps() && Inv(St()) && fresh(Repr() - old(Repr())) && weight == old(weight)
      ensures arrived == old(arrived) && served == old(served) && base == old(base)
      ensures Service(old(St()), mid, v, who, m, St()) && Forgetting(old(flows), mid) && Backlogged(mid, who) && m == mid[who].mq[0]
      ensures who in weight && weight[who] > 0 && flows == mid[who := NextFlow(mid[who], weight[who])]
    {
      hide H.Heap.Sound, Heaps, Inv, Loose, Fifo, Paid, ForgotOne, Forgetting, Drained, Bumped, Picked, PickState, AfterServe, Finish;
      ghost var forgotten := IdleCheck(1, false);
      mid := flows;
      ForgettingQueues(old(flows), mid);
      ghost var s, s0 := St(), St();
      var p;
      p, who, s := ServeOne();
      v := s.V;
      m := p.value;
      ServiceOf(old(St()), s0, s, who, m, St());
    }

    /** wf2qp_dequeue. `who` is the flow served, `mid` the flows once one idle flow was drained,
        `v` the virtual time at which the flow was picked. */
    method Dequeue() returns (m: Option<Packet>, ghost who: nat, ghost mid: Flows, ghost v: int)
      requires Valid() && idle.elements <= INT_MAX
      modifies Repr()
      ensures Valid() && fresh(Repr() - old(Repr())) && weight == old(weight)
      ensures m == None <==> forall q :: !Backlogged(old(flows), q)
      ensures m == None ==> V == 0 && wsum == 0 && Forgetting(old(flows), flows) && forall q :: q in flows ==> Unknown(flows[q])
      ensures m != None ==> Service(old(St()), mid, v, who, m.value, St())
      ensures arrived == old(arrived) && base == old(base)
      ensures m == None ==> served == old(served)
      ensures m != None ==> who in old(served) && served == old(served)[who := old(served)[who] + [m.value]]
    {
      hide H.Heap.Sound, Heaps, Inv, Loose, Fifo, Paid, Forgetting, Service, NextFlow;
      m, who, mid, v := None, 0, flows, V;
      Counts();
      if sch.elements == 0 && ne.elements == 0 {
        NothingQueued(St());
        Drain();
        return;
      }
      SomethingQueued(St());
      InvIsLoose(St());
      ghost var was := St();
      var p;
      p, who, mid, v := ServeFlow();
      m := Some(p);
      NextStarts(mid[who], weight[who]);
      FifoServed(arrived, served, was.flows, mid, who, flows);
      PaidServed(base, served, was, mid, who, flows[who]);
      served := served[who := served[who] + [p]];
    }
  }
}
