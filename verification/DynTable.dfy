/** The table of dynamic rules of sys/netinet/ipfw/ip_fw_dynamic.c, on values: entries by address, the
  chains of the hash table, and what linking and unlinking an entry keeps. */
module DynTable {
  import opened Basics
  import opened Bits

  // ---------------------------------------------------------------- flows

  /** struct ipfw_flow_id of an IPv4 flow; `flags` are the TCP flags of the packet. */
  datatype FlowId = FlowId(dstIp: nat, srcIp: nat, dstPort: nat, srcPort: nat, proto: nat, flags: bv16)

  /** hash_packet */
  function Hash(id: FlowId, buckets: nat): (i: nat)
    requires buckets > 0
    ensures i < buckets
  {
    var x := Xor(Xor(Xor(id.dstIp, id.srcIp), id.dstPort), id.srcPort);
    AndBound(x, buckets - 1);
    And(x, buckets - 1)
  }

  /** The packet goes the way of the one that made the entry. */
  predicate Forward(pkt: FlowId, id: FlowId)
  {
    pkt.proto == id.proto && pkt.srcIp == id.srcIp && pkt.dstIp == id.dstIp && pkt.srcPort == id.srcPort && pkt.dstPort == id.dstPort
  }

  predicate Reverse(pkt: FlowId, id: FlowId)
  {
    pkt.proto == id.proto && pkt.srcIp == id.dstIp && pkt.dstIp == id.srcIp && pkt.srcPort == id.dstPort && pkt.dstPort == id.srcPort
  }

  predicate SameFlow(pkt: FlowId, id: FlowId)
  {
    Forward(pkt, id) || Reverse(pkt, id)
  }

  /** Both directions of a flow are in one bucket. */
  lemma HashSymmetric(a: FlowId, b: FlowId, buckets: nat)
    requires buckets > 0 && SameFlow(a, b)
    ensures Hash(a, buckets) == Hash(b, buckets)
  {
    hide Xor, And;
    if Reverse(a, b) {
      XorCommutes(a.dstIp, a.srcIp);
      var x := Xor(a.dstIp, a.srcIp);
      XorAssociates(x, a.dstPort, a.srcPort);
      XorAssociates(x, a.srcPort, a.dstPort);
      XorCommutes(a.dstPort, a.srcPort);
    }
  }

  // ---------------------------------------------------------------- entries

  /** dyn_type: O_KEEP_STATE, O_LIMIT, O_LIMIT_PARENT. */
  datatype Kind = KeepState | Limit | Parent

  /** struct _ipfw_dyn_rule. `rule` and `parent` are addresses. */
  datatype Entry = Entry(id: FlowId, rule: nat, parent: nat, kind: Kind, expire: int, count: nat,
                         state: bv16, ackFwd: nat, ackRev: nat)

  /** Only SYN, FIN and RST of the two sides are kept. */
  predicate Clean(state: bv16)
  {
    state & 0xf8f8 == 0
  }

  type Memory = map<nat, Entry>
  type Chains = seq<seq<nat>>

  /** Entry `p` hangs in the chain of its hash. */
  ghost predicate Hangs(mem: Memory, v: Chains, p: nat)
  {
    p in mem && |v| > 0 && p in v[Hash(mem[p].id, |v|)]
  }

  /** The chains hold exactly the entries, each in the chain of its hash. */
  ghost predicate Hashed(mem: Memory, v: Chains)
  {
    && (forall p :: p in mem ==> Hangs(mem, v, p))
    && (forall i, p :: 0 <= i < |v| && p in v[i] ==> p in mem && Hash(mem[p].id, |v|) == i)
    && (forall i :: 0 <= i < |v| ==> Distinct(v[i]))
  }

  /** The sessions that count against parent `p`. */
  ghost function Children(mem: Memory, p: nat): set<nat>
  {
    set c | c in mem && mem[c].kind == Limit && mem[c].parent == p
  }

  /** A limited session has a live parent of the same rule. */
  ghost predicate ChildOk(mem: Memory, c: nat)
    requires c in mem
  {
    mem[c].kind == Limit ==> mem[c].parent in mem && mem[mem[c].parent].kind == Parent && mem[mem[c].parent].rule == mem[c].rule
  }

  /** A parent counts its live children. */
  ghost predicate ParentOk(mem: Memory, p: nat)
    requires p in mem
  {
    mem[p].kind == Parent ==> mem[p].count == |Children(mem, p)|
  }

  ghost predicate Counted(mem: Memory)
  {
    && (forall c :: c in mem ==> ChildOk(mem, c))
    && (forall p :: p in mem ==> ParentOk(mem, p))
  }

  ghost predicate Session(mem: Memory, p: nat)
  {
    p in mem && mem[p].kind != Parent
  }

  ghost predicate IsParent(mem: Memory, p: nat)
  {
    p in mem && mem[p].kind == Parent
  }

  /** No two sessions of one flow, and no two parents of one rule and identity. */
  ghost predicate Unique(mem: Memory)
  {
    && (forall p, q :: Session(mem, p) && Session(mem, q) && SameFlow(mem[p].id, mem[q].id) ==> p == q)
    && (forall p, q :: IsParent(mem, p) && IsParent(mem, q) && mem[p].rule == mem[q].rule && Forward(mem[p].id, mem[q].id) ==> p == q)
  }

  ghost predicate TableOk(mem: Memory, v: Chains)
  {
    Hashed(mem, v) && Counted(mem) && Unique(mem)
  }

  // ---------------------------------------------------------------- unlinking

  function DropRef(mem: Memory, e: Entry): (r: Memory)
    requires e.kind == Limit ==> e.parent in mem && mem[e.parent].count > 0
  {
    if e.kind == Limit then mem[e.parent := mem[e.parent].(count := mem[e.parent].count - 1)] else mem
  }

  /** The memory after UNLINK_DYN_RULE of `p`. */
  ghost function Unlinked(mem: Memory, p: nat): Memory
    requires p in mem && (mem[p].kind == Limit ==> mem[p].parent in mem && mem[mem[p].parent].count > 0)
  {
    DropRef(mem, mem[p]) - {p}
  }

  function RemoveAt(q: seq<nat>, k: nat): seq<nat>
    requires k < |q|
  {
    q[..k] + q[k + 1..]
  }

  ghost predicate Unlinkable(mem: Memory, p: nat)
  {
    p in mem && (mem[p].kind == Parent ==> mem[p].count == 0)
  }

  /** A child holds a reference, so its parent's count is positive. */
  lemma ChildHolds(mem: Memory, c: nat)
    requires Counted(mem) && c in mem && mem[c].kind == Limit
    ensures mem[c].parent in mem && mem[c].parent != c && mem[mem[c].parent].count > 0
    ensures mem[mem[c].parent].kind == Parent
  {
    assert ChildOk(mem, c);
    var p := mem[c].parent;
    assert ParentOk(mem, p);
    assert c in Children(mem, p);
  }

  /** A parent without references has no children: freeing it leaves no dangling pointer. */
  lemma NoChildren(mem: Memory, p: nat, c: nat)
    requires Counted(mem) && p in mem && mem[p].kind == Parent && mem[p].count == 0 && c in mem && mem[c].kind == Limit
    ensures mem[c].parent != p
  {
    assert ParentOk(mem, p);
    assert c !in Children(mem, p);
  }

  lemma {:induction false} UnlinkCounted(mem: Memory, p: nat)
    requires Counted(mem) && Unlinkable(mem, p)
    ensures mem[p].kind == Limit ==> mem[p].parent in mem && mem[mem[p].parent].count > 0
    ensures Counted(Unlinked(mem, p))
  {
    if mem[p].kind == Limit {
      ChildHolds(mem, p);
    }
    var m := Unlinked(mem, p);
    forall c | c in m
      ensures ChildOk(m, c)
    {
      assert ChildOk(mem, c);
      if mem[c].kind == Limit && mem[p].kind == Parent {
        NoChildren(mem, p, c);
      }
    }
    forall q | q in m
      ensures ParentOk(m, q)
    {
      assert ParentOk(mem, q);
      if mem[p].kind == Limit && mem[p].parent == q {
        assert Children(m, q) == Children(mem, q) - {p};
      } else {
        assert Children(m, q) == Children(mem, q);
      }
    }
  }

  lemma UnlinkHashed(mem: Memory, v: Chains, p: nat, i: nat, k: nat)
    requires Hashed(mem, v) && i < |v| && k < |v[i]| && v[i][k] == p && p in mem
    requires mem[p].kind == Limit ==> mem[p].parent in mem && mem[p].parent != p && mem[mem[p].parent].count > 0
    ensures Hashed(Unlinked(mem, p), v[i := RemoveAt(v[i], k)])
  {
    hide Hash;
    var m, w := Unlinked(mem, p), v[i := RemoveAt(v[i], k)];
    RemoveDistinct(v[i], k);
    forall q | q in m
      ensures Hangs(m, w, q)
    {
      assert Hangs(mem, v, q);
    }
  }

  lemma RemoveDistinct(q: seq<nat>, k: nat)
    requires Distinct(q) && k < |q|
    ensures Distinct(RemoveAt(q, k)) && forall p :: p in RemoveAt(q, k) <==> p in q && p != q[k]
  {
    forall p | p in q && p != q[k]
      ensures p in RemoveAt(q, k)
    {
      var j :| 0 <= j < |q| && q[j] == p;
      assert RemoveAt(q, k)[if j < k then j else j - 1] == p;
    }
  }

  lemma UnlinkUnique(mem: Memory, p: nat)
    requires Unique(mem) && p in mem && (mem[p].kind == Limit ==> mem[p].parent in mem && mem[mem[p].parent].count > 0)
    ensures Unique(Unlinked(mem, p))
  {
    var m := Unlinked(mem, p);
    assert forall q :: Session(m, q) ==> Session(mem, q) && m[q].id == mem[q].id;
    assert forall q :: IsParent(m, q) ==> IsParent(mem, q) && m[q].id == mem[q].id && m[q].rule == mem[q].rule;
  }

  /** Unlinking keeps the table right and touches nothing but the entry and its parent's count. */
  lemma UnlinkKeeps(mem: Memory, v: Chains, p: nat, i: nat, k: nat)
    requires TableOk(mem, v) && Unlinkable(mem, p) && i < |v| && k < |v[i]| && v[i][k] == p
    ensures mem[p].kind == Limit ==> mem[p].parent in mem && mem[mem[p].parent].count > 0
    ensures TableOk(Unlinked(mem, p), v[i := RemoveAt(v[i], k)])
    ensures |Unlinked(mem, p)| == |mem| - 1
    ensures Shrunk(mem, Unlinked(mem, p))
  {
    hide Hashed, Counted, Unique, DropRef, Unlinked, Shrunk;
    UnlinkCounted(mem, p);
    if mem[p].kind == Limit {
      ChildHolds(mem, p);
    }
    UnlinkHashed(mem, v, p, i, k);
    UnlinkUnique(mem, p);
    UnlinkShrinks(mem, p);
  }

  lemma UnlinkShrinks(mem: Memory, p: nat)
    requires p in mem && (mem[p].kind == Limit ==> mem[p].parent in mem && mem[mem[p].parent].count > 0)
    requires mem[p].kind == Limit ==> mem[mem[p].parent].kind == Parent
    ensures |Unlinked(mem, p)| == |mem| - 1 && Shrunk(mem, Unlinked(mem, p))
    ensures forall q :: q in mem && q != p ==> q in Unlinked(mem, p)
  {
    var m := DropRef(mem, mem[p]);
    assert m.Keys == mem.Keys;
    assert m.Keys == Unlinked(mem, p).Keys + {p};
  }

  /** Entries have gone; the ones left have changed in nothing but a lower reference count of parents. */
  ghost predicate Shrunk(mem: Memory, m: Memory)
  {
    forall p :: p in m ==> p in mem && SameButCount(mem[p], m[p])
  }

  /** Only the count of a parent may be lower. */
  ghost predicate SameButCount(e: Entry, f: Entry)
  {
    if e.kind == Parent then f == e.(count := f.count) && f.count <= e.count else f == e
  }

  lemma ShrunkTrans(a: Memory, b: Memory, c: Memory)
    requires Shrunk(a, b) && Shrunk(b, c)
    ensures Shrunk(a, c)
  {
    forall p | p in c
      ensures p in a && SameButCount(a[p], c[p])
    {
      assert p in b && p in a;
    }
  }

  // ---------------------------------------------------------------- linking

  function AddRef(mem: Memory, e: Entry): Memory
    requires e.kind == Limit ==> e.parent in mem
  {
    if e.kind == Limit then mem[e.parent := mem[e.parent].(count := mem[e.parent].count + 1)] else mem
  }

  ghost predicate Linkable(mem: Memory, p: nat, e: Entry)
  {
    && p !in mem && e.count == 0
    && (e.kind == Limit ==> e.parent in mem && mem[e.parent].kind == Parent && mem[e.parent].rule == e.rule)
    && (e.kind != Parent ==> forall q :: Session(mem, q) ==> !SameFlow(e.id, mem[q].id) && !SameFlow(mem[q].id, e.id))
    && (e.kind == Parent ==> forall q :: IsParent(mem, q) && mem[q].rule == e.rule ==> !Forward(e.id, mem[q].id) && !Forward(mem[q].id, e.id))
  }

  lemma NotParented(mem: Memory, p: nat)
    requires Counted(mem) && p !in mem
    ensures Children(mem, p) == {}
  {
    forall c
      ensures c !in Children(mem, p)
    {
      assert c in mem ==> ChildOk(mem, c);
    }
  }

  lemma LinkChildren(mem: Memory, p: nat, e: Entry, q: nat)
    requires p !in mem && (e.kind == Limit ==> e.parent in mem)
    ensures Children(AddRef(mem, e)[p := e], q) == Children(mem, q) + if e.kind == Limit && e.parent == q then {p} else {}
  {
    var m := AddRef(mem, e)[p := e];
    forall c
      ensures c in Children(m, q) <==> c in Children(mem, q) || (c == p && e.kind == Limit && e.parent == q)
    {
    }
  }

  lemma LinkCounted(mem: Memory, p: nat, e: Entry)
    requires Counted(mem) && Linkable(mem, p, e)
    ensures Counted(AddRef(mem, e)[p := e])
  {
    hide Children;
    var m := AddRef(mem, e)[p := e];
    forall c | c in m
      ensures ChildOk(m, c)
    {
      if c != p {
        assert ChildOk(mem, c);
      }
    }
    forall q | q in m
      ensures ParentOk(m, q)
    {
      LinkChildren(mem, p, e, q);
      NotParented(mem, p);
      if q != p {
        assert ParentOk(mem, q);
        NotAmong(mem, p, q);
      }
    }
  }

  lemma NotAmong(mem: Memory, p: nat, q: nat)
    requires p !in mem
    ensures p !in Children(mem, q)
  {
  }

  lemma LinkHashed(mem: Memory, v: Chains, p: nat, e: Entry, i: nat)
    requires Hashed(mem, v) && Linkable(mem, p, e) && |v| > 0 && i == Hash(e.id, |v|)
    ensures Hashed(AddRef(mem, e)[p := e], v[i := [p] + v[i]])
  {
    hide Hash;
    var m, w := AddRef(mem, e)[p := e], v[i := [p] + v[i]];
    forall q | q in m
      ensures Hangs(m, w, q)
    {
      assert q != p ==> Hangs(mem, v, q);
    }
  }

  lemma LinkUnique(mem: Memory, p: nat, e: Entry)
    requires Unique(mem) && Linkable(mem, p, e)
    ensures Unique(AddRef(mem, e)[p := e])
  {
    var m := AddRef(mem, e)[p := e];
    assert forall q :: Session(m, q) && q != p ==> Session(mem, q) && m[q].id == mem[q].id;
    assert forall q :: IsParent(m, q) && q != p ==> IsParent(mem, q) && m[q].id == mem[q].id && m[q].rule == mem[q].rule;
  }

  lemma LinkKeeps(mem: Memory, v: Chains, p: nat, e: Entry, i: nat)
    requires TableOk(mem, v) && Linkable(mem, p, e) && |v| > 0 && i == Hash(e.id, |v|)
    ensures TableOk(AddRef(mem, e)[p := e], v[i := [p] + v[i]])
    ensures |AddRef(mem, e)[p := e]| == |mem| + 1
  {
    hide Hashed, Counted, Unique, Hash;
    LinkCounted(mem, p, e);
    LinkHashed(mem, v, p, e, i);
    LinkUnique(mem, p, e);
    assert AddRef(mem, e)[p := e].Keys == mem.Keys + {p};
  }

  // ---------------------------------------------------------------- other changes

  /** Entry `p` with other times and TCP state. */
  ghost predicate Touched(mem: Memory, p: nat, m: Memory)
  {
    && p in mem && m.Keys == mem.Keys && (forall q :: q in mem && q != p ==> m[q] == mem[q])
    && m[p] == mem[p].(expire := m[p].expire, state := m[p].state, ackFwd := m[p].ackFwd, ackRev := m[p].ackRev)
    && (Clean(mem[p].state) ==> Clean(m[p].state))
  }

  lemma TouchCounted(mem: Memory, p: nat, m: Memory)
    requires Counted(mem) && Touched(mem, p, m)
    ensures Counted(m)
  {
    forall q | q in m
      ensures ChildOk(m, q) && ParentOk(m, q)
    {
      assert ChildOk(mem, q) && ParentOk(mem, q);
      assert Children(m, q) == Children(mem, q);
    }
  }

  lemma TouchHashed(mem: Memory, v: Chains, p: nat, m: Memory)
    requires Hashed(mem, v) && Touched(mem, p, m)
    ensures Hashed(m, v)
  {
    hide Hash;
    forall q | q in m
      ensures Hangs(m, v, q)
    {
      assert Hangs(mem, v, q);
    }
  }

  /** Times and TCP state are no part of the invariant. */
  lemma TouchKeeps(mem: Memory, v: Chains, p: nat, m: Memory)
    requires TableOk(mem, v) && Touched(mem, p, m)
    ensures TableOk(m, v)
  {
    hide Hashed, Counted;
    TouchHashed(mem, v, p, m);
    TouchCounted(mem, p, m);
    assert forall q :: Session(m, q) ==> Session(mem, q) && m[q].id == mem[q].id;
    assert forall q :: IsParent(m, q) ==> IsParent(mem, q) && m[q].id == mem[q].id && m[q].rule == mem[q].rule;
  }

  /** Moving an entry to the front of its chain. */
  lemma FrontKeeps(mem: Memory, v: Chains, i: nat, k: nat)
    requires TableOk(mem, v) && i < |v| && k < |v[i]|
    ensures TableOk(mem, v[i := [v[i][k]] + RemoveAt(v[i], k)])
  {
    hide Hash, Counted, Unique;
    RemoveDistinct(v[i], k);
    var w := v[i := [v[i][k]] + RemoveAt(v[i], k)];
    forall p | p in mem
      ensures Hangs(mem, w, p)
    {
      assert Hangs(mem, v, p);
    }
  }

  /** A table without entries may get any number of empty chains. */
  lemma ReallocKeeps(mem: Memory, v: Chains, n: nat)
    requires TableOk(mem, v) && mem == map[]
    ensures TableOk(mem, seq(n, _ => []))
  {
  }

  lemma OfTable(mem: Memory, v: Chains, i: nat, k: nat)
    requires TableOk(mem, v) && i < |v| && k < |v[i]|
    ensures v[i][k] in mem && Hash(mem[v[i][k]].id, |v|) == i
  {
    assert v[i][k] in v[i];
  }

  lemma ChainDistinct(mem: Memory, v: Chains, i: nat)
    requires TableOk(mem, v) && i < |v|
    ensures Distinct(v[i])
  {
  }

  lemma TableCounts(mem: Memory, v: Chains)
    requires TableOk(mem, v)
    ensures Counted(mem)
  {
  }

  lemma ShrunkSmaller(mem: Memory, m: Memory)
    requires Shrunk(mem, m)
    ensures |m| <= |mem|
  {
    assert m.Keys <= mem.Keys;
    SmallerSet(m.Keys, mem.Keys);
    assert |m.Keys| == |m| && |mem.Keys| == |mem|;
  }
}
