/** What all schedulers share: packets and sums of weights over sets of queues. */
module PacketQueue {

  /** An mbuf: its identity and its m_pkthdr.len. */
  datatype Packet = Packet(id: nat, len: nat)

  /** The bytes of some packets. */
  ghost function Bytes(q: seq<Packet>): nat
  {
    if q == [] then 0 else Bytes(q[..|q| - 1]) + q[|q| - 1].len
  }

  lemma BytesMore(q: seq<Packet>, m: Packet)
    ensures Bytes(q + [m]) == Bytes(q) + m.len
  {
    assert (q + [m])[..|q|] == q;
  }

  function Max(a: int, b: int): int { if a < b then b else a }

  /** The sum of the weights of a set of queues. */
  ghost function SumOf(weight: map<nat, nat>, s: set<nat>): nat
    requires s <= weight.Keys
  {
    if s == {} then 0 else
      var x :| x in s;
      weight[x] + SumOf(weight, s - {x})
  }

  lemma {:induction false} SumRemove(weight: map<nat, nat>, s: set<nat>, x: nat)
    requires s <= weight.Keys && x in s
    ensures SumOf(weight, s) == weight[x] + SumOf(weight, s - {x})
  {
    var y :| y in s && SumOf(weight, s) == weight[y] + SumOf(weight, s - {y});
    if y != x {
      SumRemove(weight, s - {y}, x);
      SumRemove(weight, s - {x}, y);
      assert s - {x} - {y} == s - {y} - {x};
    }
  }

  lemma SumAdd(weight: map<nat, nat>, s: set<nat>, x: nat)
    requires s <= weight.Keys && x in weight && x !in s
    ensures SumOf(weight, s + {x}) == weight[x] + SumOf(weight, s)
  {
    SumRemove(weight, s + {x}, x);
    assert s + {x} - {x} == s;
  }

  lemma {:induction false} SumSame(weight: map<nat, nat>, weight': map<nat, nat>, s: set<nat>)
    requires s <= weight.Keys && s <= weight'.Keys && forall x :: x in s ==> weight[x] == weight'[x]
    ensures SumOf(weight, s) == SumOf(weight', s)
    decreases s
  {
    if s != {} {
      var x :| x in s;
      SumRemove(weight, s, x);
      SumRemove(weight', s, x);
      SumSame(weight, weight', s - {x});
    }
  }
}
