/** The hash table of sys/netinet/ipfw/dn_heap.c: an array of pointers to the tails of circular lists,
  which may lose elements while they are scanned. */
module HashTable {
  import opened Basics
  import opened Bits
  import H = DnHeap

  /** An element; its link is the pointer that NEXT finds in it. */
  class Node {
    const key: nat
    var next: Node?

    constructor (key: nat)
      ensures this.key == key
    {
      this.key := key;
      next := null;
    }
  }

  /** What a scan callback asks for at its call number `k`: DNHT_SCAN_DEL and DNHT_SCAN_END. */
  type Callback = (nat, Node) -> H.ScanReply

  // ---------------------------------------------------------------- rings

  /** The links go round `ring`. */
  ghost predicate Cycle(ring: seq<Node>)
    reads ring
  {
    && Distinct(ring)
    && (forall k :: 0 <= k < |ring| - 1 ==> ring[k].next == ring[k + 1])
    && (ring != [] ==> ring[|ring| - 1].next == ring[0])
  }

  ghost function TailOf(ring: seq<Node>): Node?
  {
    if ring == [] then null else ring[|ring| - 1]
  }

  /** A ring may be entered anywhere. */
  lemma CycleTurned(a: seq<Node>, b: seq<Node>)
    requires Cycle(a + b)
    ensures Cycle(b + a)
  {
    var s, t := a + b, b + a;
    if a != [] && b != [] {
      assert s[|a| - 1].next == s[|a|];
      forall k | 0 <= k < |t| - 1
        ensures t[k].next == t[k + 1]
      {
        if k < |b| - 1 {
          assert t[k] == s[|a| + k] && t[k + 1] == s[|a| + k + 1];
        } else if k >= |b| {
          assert t[k] == s[k - |b|] && t[k + 1] == s[k - |b| + 1];
        } else {
          assert t[k] == s[|s| - 1] && t[k + 1] == s[0];
        }
      }
      forall j, k | 0 <= j < k < |t|
        ensures t[j] != t[k]
      {
        assert t[j] == s[if j < |b| then |a| + j else j - |b|];
        assert t[k] == s[if k < |b| then |a| + k else k - |b|];
      }
    } else {
      assert s == t;
    }
  }

  /** The elements that are kept of the first `n`, where the callback has been called `c` times before. */
  ghost function Kept(ring: seq<Node>, fn: Callback, c: nat, n: nat): (r: seq<Node>)
    requires n <= |ring|
    ensures |r| <= n && forall p :: p in r ==> p in ring[..n]
  {
    if n == 0 then [] else
      var r := Kept(ring, fn, c, n - 1);
      assert forall p :: p in ring[..n - 1] ==> p in ring[..n];
      assert ring[n - 1] in ring[..n] by {
        assert ring[..n][n - 1] == ring[n - 1];
      }
      if fn(c + n - 1, ring[n - 1]).del then r else r + [ring[n - 1]]
  }

  /** Exactly the flagged elements are missing. */
  lemma {:induction false} KeptIff(ring: seq<Node>, fn: Callback, c: nat, n: nat, j: nat)
    requires Distinct(ring) && n <= |ring| && j < |ring|
    ensures ring[j] in Kept(ring, fn, c, n) <==> j < n && !fn(c + j, ring[j]).del
  {
    if n > 0 {
      KeptIff(ring, fn, c, n - 1, j);
    }
  }

  /** What is left of a ring after `n` calls: what has not been looked at, and then what has been kept. */
  ghost function Rest(ring: seq<Node>, fn: Callback, c: nat, n: nat): seq<Node>
    requires n <= |ring|
  {
    ring[n..] + Kept(ring, fn, c, n)
  }

  /** Taking one element out of a ring. */
  lemma Cut(a: seq<Node>, p: Node, b: seq<Node>)
    requires Cycle(a + [p] + b) && a + b != []
    ensures Distinct(a + b) && p !in a && p !in b
    ensures forall k :: 0 <= k < |a| - 1 ==> a[k].next == a[k + 1]
    ensures forall k :: 0 <= k < |b| - 1 ==> b[k].next == b[k + 1]
    ensures p.next == (if b != [] then b[0] else a[0])
    ensures b != [] ==> b[|b| - 1].next == if a == [] then p else a[0]
    ensures a != [] ==> a[|a| - 1].next == p
  {
    var s := a + [p] + b;
    assert s[|a|] == p;
    forall k | 0 <= k < |b|
      ensures b[k] == s[|a| + 1 + k] && b[k] != p
    {
    }
    forall k | 0 <= k < |a|
      ensures a[k] == s[k] && a[k] != p
    {
    }
    forall j, k | 0 <= j < k < |a + b|
      ensures (a + b)[j] != (a + b)[k]
    {
      assert (a + b)[j] == s[if j < |a| then j else j + 1];
      assert (a + b)[k] == s[if k < |a| then k else k + 1];
    }
    if a != [] {
      assert s[|a| - 1].next == s[|a|];
    }
  }

  /** NEXT(pp) = nextp, where pp is the element before p. */
  method Bypass(pp: Node, p: Node, ghost a: seq<Node>, ghost b: seq<Node>)
    requires Cycle(a + [p] + b) && a + b != [] && pp == if a == [] then b[|b| - 1] else a[|a| - 1]
    modifies pp
    ensures Cycle(a + b)
  {
    Cut(a, p, b);
    pp.next := p.next;
    assert forall k :: 0 <= k < |a| ==> (a + b)[k] == a[k];
    assert forall k :: 0 <= k < |b| ==> (a + b)[|a| + k] == b[k];
    assert (a + b)[|a + b| - 1] == if b == [] then a[|a| - 1] else b[|b| - 1];
  }

  // ---------------------------------------------------------------- dn_ht_scan_body

  /** The element before the one after `a`, in the ring a + b. */
  ghost function Before(a: seq<Node>, b: seq<Node>): Node
    requires a + b != []
  {
    if a == [] then b[|b| - 1] else a[|a| - 1]
  }

  lemma NextOf(a: seq<Node>, p: Node, b: seq<Node>)
    requires Cycle(a + [p] + b)
    ensures Before(a, [p] + b).next == p && (Before(a, [p] + b) == p <==> a + b == [])
  {
    var s := a + [p] + b;
    assert s[|a|] == p;
    if a == [] {
      assert s[0] == p && s[|s| - 1] == Before(a, [p] + b);
    } else {
      assert s[|a| - 1] == a[|a| - 1];
    }
  }

  /** One element of the scan: `a` has been kept, `p` is looked at and `b` is to come. `slot` is the
      table's pointer and `tail` the original one. */
  method ScanStep(pp0: Node, slot0: Node?, tail: Node, reply: H.ScanReply, ghost a: seq<Node>, p: Node, ghost b: seq<Node>,
                  ghost ring: seq<Node>)
    returns (pp: Node, slot: Node?, ghost kept: seq<Node>)
    requires (forall k :: 0 <= k < |a| ==> a[k] in ring) && (forall k :: 0 <= k < |b| ==> b[k] in ring)
    requires Cycle(a + [p] + b) && pp0 == Before(a, [p] + b) && slot0 == tail == ([p] + b)[|b|]
    modifies ring
    ensures kept == if reply.del then a else a + [p]
    ensures Cycle(kept + b) && (kept + b != [] ==> pp == Before(kept, b))
    ensures slot == if b != [] then tail else TailOf(kept)
  {
    hide Cycle, Distinct;
    NextOf(a, p, b);
    IsTail(a, p, b);
    pp, slot, kept := pp0, slot0, a;
    if !reply.del {
      pp := p;
      kept := a + [p];
    } else {
      if pp != p {
        assert pp == if a == [] then b[|b| - 1] else a[|a| - 1];
        Bypass(pp, p, a, b);
      } else {
        NoCycle();
        assert a + b == [];
      }
      if p == tail {
        slot := if pp != p then pp else null;
      }
    }
  }

  lemma NoCycle()
    ensures Cycle([])
  {
  }

  lemma IsTail(a: seq<Node>, p: Node, b: seq<Node>)
    requires Cycle(a + [p] + b)
    ensures p == ([p] + b)[|b|] <==> b == []
  {
    var s := a + [p] + b;
    assert s[|a|] == p;
    assert b != [] ==> s[|s| - 1] == b[|b| - 1];
  }

  /** The list in the middle of a scan: what has been kept and what has not been looked at. */
  ghost function Present(ring: seq<Node>, fn: Callback, c: nat, n: nat): seq<Node>
    requires n <= |ring|
  {
    Kept(ring, fn, c, n) + ring[n..]
  }

  /** The variables of the scan loop after `n` calls: the element before the next one, and the pointer
      of the table. */
  ghost predicate At(ring: seq<Node>, fn: Callback, c: nat, n: nat, pp: Node, slot: Node?)
  {
    && n <= |ring| && (Present(ring, fn, c, n) != [] ==> pp == Before(Kept(ring, fn, c, n), ring[n..]))
    && slot == if n < |ring| then TailOf(ring) else TailOf(Kept(ring, fn, c, n))
  }

  lemma AtStart(ring: seq<Node>, fn: Callback, c: nat)
    requires ring != []
    ensures Present(ring, fn, c, 0) == ring && At(ring, fn, c, 0, ring[|ring| - 1], TailOf(ring))
  {
  }

  lemma KeptIn(ring: seq<Node>, fn: Callback, c: nat, n: nat)
    requires n < |ring|
    ensures forall k :: 0 <= k < |Kept(ring, fn, c, n)| ==> Kept(ring, fn, c, n)[k] in ring
  {
  }

  /** The ring that is left when the scan ends with call `n`. */
  lemma EndRest(ring: seq<Node>, fn: Callback, c: nat, n: nat, pp: Node, slot: Node?)
    requires n <= |ring| && Cycle(Present(ring, fn, c, n)) && At(ring, fn, c, n, pp, slot)
    ensures Cycle(Rest(ring, fn, c, n)) && TailOf(Rest(ring, fn, c, n)) == if slot == null then null else pp
    ensures n == |ring| ==> Rest(ring, fn, c, n) == Present(ring, fn, c, n) && TailOf(Rest(ring, fn, c, n)) == slot
  {
    hide Cycle, Kept;
    CycleTurned(Kept(ring, fn, c, n), ring[n..]);
    TurnedTail(Kept(ring, fn, c, n), ring[n..]);
  }

  lemma KeptNext(ring: seq<Node>, fn: Callback, c: nat, n: nat)
    requires n < |ring|
    ensures Kept(ring, fn, c, n + 1) == if fn(c + n, ring[n]).del then Kept(ring, fn, c, n) else Kept(ring, fn, c, n) + [ring[n]]
    ensures ring[n..] == [ring[n]] + ring[n + 1..] && forall a: seq<Node> :: a + ring[n..] == a + [ring[n]] + ring[n + 1..]
  {
  }

  /** The callback asks for the end at call `n` of a bucket and not before. */
  ghost predicate EndsAt(ring: seq<Node>, fn: Callback, c: nat, n: nat, ended: bool)
  {
    && 1 <= n <= |ring| && (!ended ==> n == |ring|)
    && (forall j :: 0 <= j < n - 1 ==> !fn(c + j, ring[j]).end)
    && ended == fn(c + n - 1, ring[n - 1]).end
  }

  /** One turn of the loop of dn_ht_scan_body, with the callback. */
  method ScanTurn(pp0: Node, slot0: Node?, tail: Node, fn: Callback, c: nat, n: nat, ghost ring: seq<Node>)
    returns (pp: Node, slot: Node?, p: Node, reply: H.ScanReply)
    requires n < |ring| && Cycle(Present(ring, fn, c, n)) && At(ring, fn, c, n, pp0, slot0) && tail == TailOf(ring)
    modifies ring
    ensures Cycle(Present(ring, fn, c, n + 1)) && At(ring, fn, c, n + 1, pp, slot)
    ensures p == ring[n] && reply == fn(c + n, p) && (p == tail <==> n + 1 == |ring|)
    ensures |Kept(ring, fn, c, n + 1)| == |Kept(ring, fn, c, n)| + (if reply.del then 0 else 1)
  {
    hide Cycle, Distinct, Kept;
    ghost var a, b := Kept(ring, fn, c, n), ring[n + 1..];
    KeptNext(ring, fn, c, n);
    KeptIn(ring, fn, c, n);
    assert a + ring[n..] == a + [ring[n]] + b;
    NextOf(a, ring[n], b);
    IsTail(a, ring[n], b);
    p := pp0.next;
    reply := fn(c + n, p);
    ghost var kept;
    pp, slot, kept := ScanStep(pp0, slot0, tail, reply, a, p, b, ring);
  }

  /** dn_ht_scan_body on the bucket with the tail `slot0`, after `c` calls. The bucket is left turned, so
      that the next scan goes on where this one has ended. */
  method ScanRing(slot0: Node, fn: Callback, c: nat, ghost ring: seq<Node>)
    returns (slot: Node?, found: nat, ended: bool, calls: nat)
    requires Cycle(ring) && ring != [] && slot0 == TailOf(ring)
    modifies ring
    ensures EndsAt(ring, fn, c, calls, ended)
    ensures Cycle(Rest(ring, fn, c, calls)) && slot == TailOf(Rest(ring, fn, c, calls))
    ensures found == calls - |Kept(ring, fn, c, calls)|
  {
    hide Cycle, Distinct, Kept, Rest, TailOf, Before, Present, At;
    TailIs(ring);
    var pp: Node, tail := slot0, slot0;
    slot, found, calls := slot0, 0, 0;
    AtStart(ring, fn, c);
    KeptNone(ring, fn, c);
    while true
      invariant calls < |ring| && Cycle(Present(ring, fn, c, calls)) && At(ring, fn, c, calls, pp, slot)
      invariant found == calls - |Kept(ring, fn, c, calls)| && forall j :: 0 <= j < calls ==> !fn(c + j, ring[j]).end
      decreases |ring| - calls
    {
      var p, reply;
      pp, slot, p, reply := ScanTurn(pp, slot, tail, fn, c, calls, ring);
      if reply.del {
        found := found + 1;
      }
      calls := calls + 1;
      if reply.end {
        EndRest(ring, fn, c, calls, pp, slot);
        return if slot == null then null else pp, found, true, calls;
      }
      if p == tail {
        break;
      }
    }
    ended := false;
    EndRest(ring, fn, c, calls, pp, slot);
  }

  lemma TailIs(ring: seq<Node>)
    requires ring != []
    ensures TailOf(ring) == ring[|ring| - 1]
  {
  }

  lemma KeptNone(ring: seq<Node>, fn: Callback, c: nat)
    ensures Kept(ring, fn, c, 0) == []
  {
  }

  lemma TurnedTail(a: seq<Node>, b: seq<Node>)
    ensures TailOf(b + a) == if a + b == [] then null else Before(a, b)
    ensures a + b != [] ==> (if b != [] then true else TailOf(a) != null)
  {
  }

  lemma TailAfter(a: seq<Node>, p: Node, b: seq<Node>)
    ensures TailOf(a + b) == if b != [] then TailOf(a + [p] + b) else if a == [] then null else a[|a| - 1]
  {
  }

  // ---------------------------------------------------------------- the table

  ghost function SetOf(q: seq<Node>): set<Node>
  {
    set p | p in q
  }

  lemma {:induction false} SetSize(q: seq<Node>)
    requires Distinct(q)
    ensures |SetOf(q)| == |q|
  {
    if q != [] {
      var n := |q| - 1;
      SetSize(q[..n]);
      assert q == q[..n] + [q[n]];
      assert SetOf(q) == SetOf(q[..n]) + {q[n]};
    } else {
      assert SetOf(q) == {};
    }
  }

  /** What a scan that has made `n` calls has removed from a ring. */
  lemma RestSize(ring: seq<Node>, fn: Callback, c: nat, n: nat)
    requires Distinct(ring) && n <= |ring|
    ensures Distinct(Rest(ring, fn, c, n)) && SetOf(Rest(ring, fn, c, n)) <= SetOf(ring)
    ensures |SetOf(ring) - SetOf(Rest(ring, fn, c, n))| == n - |Kept(ring, fn, c, n)|
    ensures forall j :: 0 <= j < |ring| ==> (ring[j] in Rest(ring, fn, c, n) <==> !(j < n && fn(c + j, ring[j]).del))
  {
    var rest := Rest(ring, fn, c, n);
    KeptDistinct(ring, fn, c, n);
    forall j | 0 <= j < |ring|
      ensures ring[j] in rest <==> !(j < n && fn(c + j, ring[j]).del)
    {
      KeptIff(ring, fn, c, n, j);
      if j >= n {
        assert rest[j - n] == ring[j];
      } else {
        assert forall k :: 0 <= k < |ring[n..]| ==> ring[n..][k] == ring[n + k] != ring[j];
      }
    }
    assert forall p :: p in ring[..n] ==> p in ring;
    assert forall p :: p in ring[n..] ==> p in ring;
    SetSize(ring);
    SetSize(rest);
    assert SetOf(ring) == SetOf(rest) + (SetOf(ring) - SetOf(rest));
  }

  lemma {:induction false} KeptDistinct(ring: seq<Node>, fn: Callback, c: nat, n: nat)
    requires Distinct(ring) && n <= |ring|
    ensures Distinct(Kept(ring, fn, c, n)) && Distinct(Rest(ring, fn, c, n))
  {
    if n > 0 {
      KeptDistinct(ring, fn, c, n - 1);
    }
    var k, rest := Kept(ring, fn, c, n), Rest(ring, fn, c, n);
    if n > 0 {
      assert ring[n - 1] !in ring[..n - 1];
    }
    forall i, j | 0 <= i < |ring| - n && 0 <= j < |k|
      ensures ring[n..][i] != k[j]
    {
      assert k[j] in ring[..n];
      var m :| 0 <= m < n && ring[m] == k[j];
      assert ring[n..][i] == ring[n + i];
    }
  }

  /** The elements that a scan has asked to delete. */
  ghost function Deleted(seen: seq<Node>, fn: Callback): set<Node>
  {
    set k | 0 <= k < |seen| && fn(k, seen[k]).del :: seen[k]
  }

  datatype Action = Look | Remove | Insert

  class Table {
    /** ht->buckets, a power of two minus one. */
    const mask: nat
    const hash: nat -> nat
    var ht: seq<Node?>
    var entries: nat
    ghost var rings: seq<seq<Node>>
    ghost var nodes: set<Node>

    /** With a mask of 1 only the first bucket is used. */
    function Index(key: nat): (i: nat)
      ensures i <= mask
    {
      AndBound(hash(key), mask);
      if mask == 1 then 0 else And(hash(key), mask)
    }

    /** The rings hold the elements, each in the bucket of its key, and no two with one key. */
    ghost predicate Placed(rings: seq<seq<Node>>, nodes: set<Node>)
    {
      && |rings| == mask + 1
      && (forall i, p :: 0 <= i < |rings| && p in rings[i] ==> p in nodes && Index(p.key) == i)
      && (forall p :: p in nodes ==> p in rings[Index(p.key)])
      && (forall p, q :: p in nodes && q in nodes && p.key == q.key ==> p == q)
    }

    ghost predicate Rings()
      reads this, nodes
    {
      && Placed(rings, nodes) && |ht| == |rings|
      && forall i :: 0 <= i < |rings| ==> Cycle(rings[i]) && ht[i] == TailOf(rings[i])
    }

    ghost predicate Valid()
      reads this, nodes
    {
      Rings() && entries == |nodes|
    }

    constructor (mask: nat, hash: nat -> nat)
      ensures Valid() && nodes == {} && this.mask == mask && this.hash == hash
    {
      this.mask, this.hash, entries, nodes := mask, hash, 0, {};
      ht, rings := seq(mask + 1, _ => null), seq(mask + 1, _ => []);
    }

    /** The search of dn_ht_find: `pp` is the element before `p`. */
    method Search(tail: Node, key: nat, ghost ring: seq<Node>) returns (found: bool, pp: Node, p: Node, ghost n: nat)
      requires Cycle(ring) && ring != [] && tail == TailOf(ring)
      ensures found ==> n < |ring| && p == ring[n] && p.key == key && pp == Before(ring[..n], ring[n..])
      ensures !found ==> forall k :: 0 <= k < |ring| ==> ring[k].key != key
    {
      pp, n := tail, 0;
      while true
        invariant n < |ring| && pp == Before(ring[..n], ring[n..])
        invariant forall k :: 0 <= k < n ==> ring[k].key != key
        decreases |ring| - n
      {
        SplitAt(ring, n);
        NextOf(ring[..n], ring[n], ring[n + 1..]);
        IsTail(ring[..n], ring[n], ring[n + 1..]);
        p := pp.next;
        if p.key == key {
          return true, pp, p, n;
        }
        pp := p;
        if pp == tail {
          return false, pp, p, n;
        }
        n := n + 1;
      }
    }

    lemma SplitAt(ring: seq<Node>, n: nat)
      requires n < |ring|
      ensures ring == ring[..n] + [ring[n]] + ring[n + 1..] && [ring[n]] + ring[n + 1..] == ring[n..]
    {
    }

    lemma PlacedRemoved(rings: seq<seq<Node>>, nodes: set<Node>, i: nat, r: seq<Node>)
      requires Placed(rings, nodes) && i < |rings| && SetOf(r) <= SetOf(rings[i])
      ensures var gone := SetOf(rings[i]) - SetOf(r); gone <= nodes && Placed(rings[i := r], nodes - gone)
    {
      var gone := SetOf(rings[i]) - SetOf(r);
      forall p | p in nodes - gone
        ensures p in rings[i := r][Index(p.key)]
      {
        assert p in rings[Index(p.key)];
      }
    }

    lemma PlacedAdded(rings: seq<seq<Node>>, nodes: set<Node>, i: nat, x: Node)
      requires Placed(rings, nodes) && i == Index(x.key) && x !in nodes && forall p :: p in nodes ==> p.key != x.key
      ensures Placed(rings[i := [x] + rings[i]], nodes + {x})
    {
      forall p | p in nodes + {x}
        ensures p in rings[i := [x] + rings[i]][Index(p.key)]
      {
        assert p != x ==> p in rings[Index(p.key)];
      }
    }

    /** A change of the links in one bucket. */
    lemma OneBucket(i: nat, was: seq<seq<Node>>)
      requires |was| == |rings| == |ht| == mask + 1 && i < |rings| && was[..] == rings[i := was[i]]
      requires Placed(rings, nodes) && Cycle(rings[i]) && ht[i] == TailOf(rings[i])
      requires forall j :: 0 <= j < |was| && j != i ==> Cycle(was[j]) && ht[j] == TailOf(was[j])
      ensures Rings()
    {
      forall j | 0 <= j < |rings|
        ensures Cycle(rings[j]) && ht[j] == TailOf(rings[j])
      {
        assert j != i ==> rings[j] == was[j];
      }
    }

    /** The part of dn_ht_find that takes `p` out of bucket `i`. */
    method RemoveFound(i: nat, pp: Node, p: Node, ghost n: nat)
      requires Valid() && i < |rings| && n < |rings[i]| && rings[i][n] == p && pp == Before(rings[i][..n], rings[i][n..])
      modifies this, rings[i]
      ensures Valid() && nodes == old(nodes) - {p}
    {
      hide Cycle, Distinct, Placed, TailOf;
      ghost var ring, was := rings[i], rings;
      ghost var r := ring[..n] + ring[n + 1..];
      SplitAt(ring, n);
      PlacedSize();
      TailIs(ring);
      RemoveSets(ring, ring[..n], p, ring[n + 1..]);
      PlacedRemoved(rings, nodes, i, r);
      Separate(i);
      entries := entries - 1;
      var slot := Unlink(ht[i], pp, p, ring, n);
      forall j | 0 <= j < |was| && j != i
        ensures Cycle(was[j])
      {
        assert old(Cycle(rings[j])) && was[j] == old(rings[j]);
        assert forall k :: 0 <= k < |was[j]| ==> was[j][k] !in ring;
      }
      ht := ht[i := slot];
      rings := rings[i := r];
      nodes := nodes - {p};
      OneBucket(i, was);
    }

    /** The links around `p`, and the new tail. */
    static method Unlink(tail: Node?, pp: Node, p: Node, ghost ring: seq<Node>, ghost n: nat) returns (slot: Node?)
      requires n < |ring| && Cycle(ring) && ring[n] == p && pp == Before(ring[..n], ring[n..]) && tail == ring[|ring| - 1]
      modifies ring
      ensures Cycle(ring[..n] + ring[n + 1..]) && slot == TailOf(ring[..n] + ring[n + 1..])
    {
      hide Cycle, Distinct, TailOf;
      ghost var a, b := ring[..n], ring[n + 1..];
      assert ring == a + [p] + b && ring[n..] == [p] + b;
      NextOf(a, p, b);
      IsTail(a, p, b);
      TailAfter(a, p, b);
      TailIs(ring);
      slot := tail;
      if p != pp {
        Bypass(pp, p, a, b);
      } else {
        NoCycle();
        assert a + b == [];
      }
      if p == tail {
        slot := if pp != p then pp else null;
      }
    }

    lemma PlacedSize()
      requires Placed(rings, nodes)
      ensures |rings| == mask + 1
    {
    }

    /** No element is in two buckets. */
    lemma Separate(i: nat)
      requires Placed(rings, nodes) && i < |rings|
      ensures forall j, p :: 0 <= j < |rings| && j != i && p in rings[j] ==> p !in rings[i]
    {
      forall j, p | 0 <= j < |rings| && j != i && p in rings[j]
        ensures p !in rings[i]
      {
        assert Index(p.key) == j;
      }
    }

    lemma RemoveSets(ring: seq<Node>, a: seq<Node>, p: Node, b: seq<Node>)
      requires Cycle(ring) && ring == a + [p] + b
      ensures SetOf(a + b) <= SetOf(ring) && SetOf(ring) - SetOf(a + b) == {p} && p in ring
    {
      assert ring[|a|] == p;
      forall k | 0 <= k < |a + b|
        ensures (a + b)[k] in ring && (a + b)[k] != p
      {
        assert (a + b)[k] == ring[if k < |a| then k else k + 1];
      }
      forall x | x in ring && x != p
        ensures x in a + b
      {
        var k :| 0 <= k < |ring| && ring[k] == x;
        assert (a + b)[if k < |a| then k else k - 1] == x;
      }
    }

    /** The part of dn_ht_find that links a new element after the tail of bucket `i`. */
    method Link(i: nat, x: Node)
      requires Valid() && i == Index(x.key) && x !in nodes && forall p :: p in nodes ==> p.key != x.key
      modifies this, rings[i], x
      ensures Valid() && nodes == old(nodes) + {x}
    {
      hide Cycle, Distinct, Placed, TailOf, Index;
      PlacedSize();
      ghost var ring, was := rings[i], rings;
      PlacedIn(i);
      PlacedAdded(rings, nodes, i, x);
      Separate(i);
      entries := entries + 1;
      var slot := LinkRing(ht[i], x, ring);
      forall j | 0 <= j < |was| && j != i
        ensures Cycle(was[j])
      {
        assert old(Cycle(rings[j])) && was[j] == old(rings[j]);
        assert forall k :: 0 <= k < |was[j]| ==> was[j][k] !in ring && was[j][k] in old(nodes);
      }
      ht := ht[i := slot];
      rings := rings[i := [x] + ring];
      nodes := nodes + {x};
      OneBucket(i, was);
    }

    lemma PlacedIn(i: nat)
      requires Placed(rings, nodes) && i < |rings|
      ensures forall j, p :: 0 <= j < |rings| && p in rings[j] ==> p in nodes
    {
    }

    static method LinkRing(tail: Node?, x: Node, ghost ring: seq<Node>) returns (slot: Node?)
      requires Cycle(ring) && tail == TailOf(ring) && x !in ring
      modifies ring, x
      ensures Cycle([x] + ring) && slot == TailOf([x] + ring)
    {
      if tail == null {
        x.next := x;
        slot := x;
        assert [x] + ring == [x];
      } else {
        x.next := tail.next;
        tail.next := x;
        slot := tail;
      }
    }

    /** dn_ht_find: the element with a key, which is taken out or made if asked for. */
    method Find(key: nat, act: Action) returns (r: Node?)
      requires Valid()
      modifies this, nodes
      ensures Valid()
      ensures (exists p :: p in old(nodes) && p.key == key) ==>
                r in old(nodes) && r.key == key && nodes == if act == Remove then old(nodes) - {r} else old(nodes)
      ensures (forall p :: p in old(nodes) ==> p.key != key) ==>
                if act == Insert then r != null && fresh(r) && r.key == key && nodes == old(nodes) + {r}
                else r == null && nodes == old(nodes)
    {
      hide Cycle, Distinct, Placed, TailOf, Index;
      PlacedSize();
      var i := Index(key);
      var tail := ht[i];
      InBucket(key);
      SomeTail(rings[i]);
      if tail != null {
        var found, pp, p, n := Search(tail, key, rings[i]);
        if found {
          if act == Remove {
            RemoveFound(i, pp, p, n);
          }
          return p;
        }
      }
      if act != Insert {
        return null;
      }
      var x := new Node(key);
      Link(i, x);
      r := x;
    }

    lemma SomeTail(ring: seq<Node>)
      ensures TailOf(ring) != null <==> ring != []
    {
    }

    /** An element can only be in the bucket of its key. */
    lemma InBucket(key: nat)
      requires Placed(rings, nodes)
      ensures var ring := rings[Index(key)];
              && (forall k :: 0 <= k < |ring| ==> ring[k] in nodes)
              && (forall p :: p in nodes && p.key == key ==> p in ring)
              && (forall p, q :: p in nodes && q in nodes && p.key == q.key ==> p == q)
    {
    }

    /** The effect of a scan of bucket `i`, of which `ring` was the list. */
    ghost predicate Scanned(was: seq<seq<Node>>, all: set<Node>, i: nat, fn: Callback, c: nat, calls: nat, ended: bool)
      reads this
    {
      && i < |was| && EndsAt(was[i], fn, c, calls, ended)
      && rings == was[i := Rest(was[i], fn, c, calls)]
      && nodes == all - (SetOf(was[i]) - SetOf(Rest(was[i], fn, c, calls)))
    }

    /** dn_ht_scan_body */
    method ScanBody(i: nat, fn: Callback, c: nat) returns (found: nat, ended: bool, calls: nat)
      requires Valid() && i < |ht| && ht[i] != null
      modifies this, rings[i]
      ensures Valid() && |ht| == |old(ht)|
      ensures Scanned(old(rings), old(nodes), i, fn, c, calls, ended)
      ensures entries == old(entries) - found && found == |old(nodes) - nodes|
    {
      hide Cycle, Distinct, Placed, TailOf, Index, EndsAt, Kept, Rest, SetOf;
      PlacedSize();
      ghost var ring, was := rings[i], rings;
      SomeTail(ring);
      CycleDistinct(ring);
      Separate(i);
      var slot;
      slot, found, ended, calls := ScanRing(ht[i], fn, c, ring);
      CallsIn(ring, fn, c, calls, ended);
      ghost var rest := Rest(ring, fn, c, calls);
      ScanSets(was, nodes, i, fn, c, calls);
      forall j | 0 <= j < |was| && j != i
        ensures Cycle(was[j])
      {
        assert old(Cycle(rings[j])) && was[j] == old(rings[j]);
        assert forall k :: 0 <= k < |was[j]| ==> was[j][k] !in ring;
      }
      ht := ht[i := slot];
      rings := rings[i := rest];
      ghost var gone := SetOf(ring) - SetOf(rest);
      entries := entries - found;
      nodes := nodes - gone;
      OneBucket(i, was);
    }

    lemma ScanSets(rings: seq<seq<Node>>, nodes: set<Node>, i: nat, fn: Callback, c: nat, n: nat)
      requires Placed(rings, nodes) && i < |rings| && Distinct(rings[i]) && n <= |rings[i]|
      ensures var rest := Rest(rings[i], fn, c, n);
              var gone := SetOf(rings[i]) - SetOf(rest);
              && Placed(rings[i := rest], nodes - gone)
              && |nodes - gone| == |nodes| - (n - |Kept(rings[i], fn, c, n)|) && |nodes - (nodes - gone)| == n - |Kept(rings[i], fn, c, n)|
    {
      hide Placed, Rest, SetOf, Kept;
      RestSize(rings[i], fn, c, n);
      PlacedRemoved(rings, nodes, i, Rest(rings[i], fn, c, n));
      SetMinus(nodes, SetOf(rings[i]) - SetOf(Rest(rings[i], fn, c, n)));
    }

    lemma SetMinus(a: set<Node>, b: set<Node>)
      requires b <= a
      ensures |a - b| == |a| - |b| && a - (a - b) == b
    {
      assert a == (a - b) + b;
    }

    lemma CallsIn(ring: seq<Node>, fn: Callback, c: nat, n: nat, ended: bool)
      requires EndsAt(ring, fn, c, n, ended)
      ensures n <= |ring| && (!ended ==> n == |ring|)
    {
    }

    lemma CycleDistinct(ring: seq<Node>)
      requires Cycle(ring)
      ensures Distinct(ring)
    {
    }

    /** dn_ht_scan_bucket */
    method ScanBucket(bucket: int, fn: Callback) returns (found: nat, next: int, ghost calls: nat, ghost ended: bool)
      requires Valid()
      modifies this, nodes
      ensures Valid()
      ensures var i := if 0 <= bucket <= mask then bucket else 0;
              && i < |old(rings)|
              && (old(rings)[i] == [] ==> found == 0 && rings == old(rings) && nodes == old(nodes) && next == i + 1)
              && (old(rings)[i] != [] ==> Scanned(old(rings), old(nodes), i, fn, 0, calls, ended) &&
                                          found == |old(nodes) - nodes| && next == if ended then i else i + 1)
    {
      hide Cycle, Distinct, Placed, TailOf, Index, EndsAt, Rest;
      PlacedSize();
      next := bucket;
      if next > mask || next < 0 {
        next := 0;
      }
      found, calls, ended := 0, 0, false;
      SomeTail(rings[next]);
      PlacedIn(next);
      if ht[next] == null {
        next := next + 1;
      } else {
        var n, e;
        found, e, n := ScanBody(next, fn, 0);
        calls, ended := n, e;
        if !e {
          next := next + 1;
        }
      }
    }

    /** The callback has been called once on each element of the first `i` buckets. */
    ghost predicate Seen(seen: seq<Node>, all: set<Node>, i: nat)
    {
      && Distinct(seen) && (forall p :: p in seen ==> p in all && Index(p.key) < i)
      && (forall p :: p in all && Index(p.key) < i ==> p in seen)
    }

    lemma SeenMore(seen: seq<Node>, all: set<Node>, i: nat, ring: seq<Node>, n: nat)
      requires Seen(seen, all, i) && Distinct(ring) && n <= |ring|
      requires (forall p :: p in ring ==> p in all && Index(p.key) == i) && forall p :: p in all && Index(p.key) == i ==> p in ring
      ensures Distinct(seen + ring[..n]) && (forall p :: p in seen + ring[..n] ==> p in all)
      ensures n == |ring| ==> Seen(seen + ring[..n], all, i + 1)
    {
      hide Index;
      assert forall p :: p in ring[..n] ==> p in ring;
      forall j, k | 0 <= j < |seen| && 0 <= k < n
        ensures seen[j] != ring[k]
      {
        assert seen[j] in seen && ring[k] in ring;
      }
      if n == |ring| {
        assert ring[..n] == ring;
      }
    }

    lemma NotSeen(seen: seq<Node>, ring: seq<Node>, n: nat, j: nat)
      requires n <= |ring| && Distinct(seen + ring[..n]) && j < n
      ensures ring[j] !in seen && (seen + ring[..n])[|seen| + j] == ring[j]
    {
      var more := seen + ring[..n];
      forall k | 0 <= k < |seen|
        ensures seen[k] != ring[j]
      {
        assert more[k] == seen[k] && more[|seen| + j] == ring[j];
      }
    }

    lemma DeletedSplit(seen: seq<Node>, fn: Callback, ring: seq<Node>, n: nat, p: Node)
      requires n <= |ring|
      ensures p in Deleted(seen + ring[..n], fn) <==>
              p in Deleted(seen, fn) || exists j :: 0 <= j < n && fn(|seen| + j, ring[j]).del && ring[j] == p
    {
      var c, more := |seen|, seen + ring[..n];
      assert forall k :: 0 <= k < c ==> more[k] == seen[k];
      assert forall j :: 0 <= j < n ==> more[c + j] == ring[j];
      if p in Deleted(more, fn) {
        var k :| 0 <= k < |more| && fn(k, more[k]).del && more[k] == p;
        assert k >= c ==> more[k] == ring[k - c] && fn(c + (k - c), ring[k - c]).del;
      }
      if p in Deleted(seen, fn) {
        var k :| 0 <= k < c && fn(k, seen[k]).del && seen[k] == p;
        assert more[k] == p;
      }
    }

    /** The element `p` is flagged at one of the `n` calls on a ring. */
    ghost predicate FlaggedIn(ring: seq<Node>, fn: Callback, c: nat, n: nat, p: Node)
    {
      exists j :: 0 <= j < n && j < |ring| && fn(c + j, ring[j]).del && ring[j] == p
    }

    lemma GoneIff(ring: seq<Node>, fn: Callback, c: nat, n: nat, p: Node)
      requires Distinct(ring) && n <= |ring|
      ensures p in SetOf(ring) - SetOf(Rest(ring, fn, c, n)) <==> FlaggedIn(ring, fn, c, n, p)
    {
      hide Rest;
      RestSize(ring, fn, c, n);
      if p in ring {
        var j :| 0 <= j < |ring| && ring[j] == p;
        assert ring[j] in Rest(ring, fn, c, n) <==> !(j < n && fn(c + j, ring[j]).del);
      }
    }

    lemma DeletedPoint(seen: seq<Node>, fn: Callback, ring: seq<Node>, n: nat, p: Node)
      requires n <= |ring| && Distinct(seen + ring[..n])
      ensures p in Deleted(seen + ring[..n], fn) <==> p in Deleted(seen, fn) || FlaggedIn(ring, fn, |seen|, n, p)
      ensures FlaggedIn(ring, fn, |seen|, n, p) ==> p !in Deleted(seen, fn)
    {
      hide Deleted, Distinct;
      DeletedSplit(seen, fn, ring, n, p);
      DeletedSeen(seen, fn, p);
      if FlaggedIn(ring, fn, |seen|, n, p) {
        var j :| 0 <= j < n && j < |ring| && fn(|seen| + j, ring[j]).del && ring[j] == p;
        NotSeen(seen, ring, n, j);
      }
    }

    lemma DeletedMore(seen: seq<Node>, fn: Callback, ring: seq<Node>, n: nat)
      requires Distinct(ring) && n <= |ring| && Distinct(seen + ring[..n])
      ensures var gone := SetOf(ring) - SetOf(Rest(ring, fn, |seen|, n));
              Deleted(seen + ring[..n], fn) == Deleted(seen, fn) + gone && Deleted(seen, fn) !! gone
    {
      hide Rest, Deleted, Distinct, SetOf, FlaggedIn;
      var gone := SetOf(ring) - SetOf(Rest(ring, fn, |seen|, n));
      var more := Deleted(seen + ring[..n], fn);
      forall p | p in more
        ensures p in Deleted(seen, fn) + gone
      {
        GoneIff(ring, fn, |seen|, n, p);
        DeletedPoint(seen, fn, ring, n, p);
      }
      forall p | p in gone
        ensures p in more && p !in Deleted(seen, fn)
      {
        GoneIff(ring, fn, |seen|, n, p);
        DeletedPoint(seen, fn, ring, n, p);
      }
      forall p | p in Deleted(seen, fn)
        ensures p in more
      {
        DeletedPoint(seen, fn, ring, n, p);
      }
    }

    lemma DeletedSeen(seen: seq<Node>, fn: Callback, p: Node)
      ensures p in Deleted(seen, fn) ==> p in seen
    {
    }

    /** Whether the callback has asked for the end, at its last call only. */
    ghost predicate Ends(seen: seq<Node>, fn: Callback, ended: bool)
    {
      && (forall k :: 0 <= k < |seen| - 1 ==> !fn(k, seen[k]).end)
      && (ended <==> seen != [] && fn(|seen| - 1, seen[|seen| - 1]).end)
    }

    lemma EndsMore(seen: seq<Node>, fn: Callback, ring: seq<Node>, n: nat, ended: bool)
      requires Ends(seen, fn, false) && EndsAt(ring, fn, |seen|, n, ended)
      ensures Ends(seen + ring[..n], fn, ended)
    {
      var more := seen + ring[..n];
      forall k | 0 <= k < |more| - 1
        ensures !fn(k, more[k]).end
      {
        assert more[k] == if k < |seen| then seen[k] else ring[k - |seen|];
        assert k >= |seen| ==> !fn(|seen| + (k - |seen|), ring[k - |seen|]).end;
      }
    }

    lemma SeenNone(all: set<Node>, fn: Callback)
      ensures Seen([], all, 0) && Ends([], fn, false) && Deleted([], fn) == {}
    {
    }

    lemma SeenSub(seen: seq<Node>, all: set<Node>)
      requires forall p :: p in seen ==> p in all
      ensures SetOf(seen) <= all
    {
    }

    lemma SeenAll(seen: seq<Node>, all: set<Node>)
      requires Seen(seen, all, mask + 1)
      ensures Distinct(seen) && SetOf(seen) == all
    {
      forall p | p in all
        ensures p in seen
      {
        assert Index(p.key) < mask + 1;
      }
    }

    lemma RingDistinct(i: nat)
      requires Rings() && i < |rings|
      ensures Distinct(rings[i])
    {
      CycleDistinct(rings[i]);
    }

    lemma SubBucket(all: set<Node>, ring: seq<Node>, gone: set<Node>)
      requires (forall p :: p in ring ==> p in all) && gone <= SetOf(ring)
      ensures gone <= all
    {
    }

    lemma CountMore(all: set<Node>, deleted: set<Node>, gone: set<Node>, before: set<Node>, after: set<Node>)
      requires deleted <= all && before == all - deleted && after == before - gone && deleted !! gone && gone <= all
      ensures after == all - (deleted + gone) && |deleted + gone| == |deleted| + |before - after|
    {
      assert before - after == gone;
    }

    /** The elements of a bucket are those with its index. */
    lemma BucketIs(rings: seq<seq<Node>>, all: set<Node>, i: nat)
      requires Placed(rings, all) && i < |rings|
      ensures forall p :: p in rings[i] ==> p in all && Index(p.key) == i
      ensures forall p :: p in all && Index(p.key) == i ==> p in rings[i]
    {
    }

    /** One bucket of dn_ht_scan. */
    method ScanOne(i: nat, fn: Callback, calls: nat, ghost seen: seq<Node>, ghost was: seq<seq<Node>>, ghost all: set<Node>)
      returns (found: nat, ended: bool, k: nat)
      requires Valid() && i < |ht| && ht[i] != null && Placed(was, all) && |was| == |rings| && rings[i] == was[i]
      requires calls == |seen| && Seen(seen, all, i) && Ends(seen, fn, false)
      requires nodes == all - Deleted(seen, fn) && Deleted(seen, fn) <= all
      modifies this, rings[i]
      ensures Valid() && |ht| == |old(ht)| && |rings| == |was| && (forall j :: 0 <= j < |was| && j != i ==> rings[j] == old(rings)[j])
      ensures k <= |was[i]|
      ensures var more := seen + was[i][..k];
              && Ends(more, fn, ended) && Distinct(more) && (forall p :: p in more ==> p in all)
              && (!ended ==> Seen(more, all, i + 1))
              && nodes == all - Deleted(more, fn) && Deleted(more, fn) <= all
              && |Deleted(more, fn)| == |Deleted(seen, fn)| + found
    {
      hide Cycle, Placed, TailOf, Index, EndsAt, Ends, Rest, Deleted, Seen, SetOf, Distinct;
      ghost var ring, before := was[i], nodes;
      PlacedSize();
      RingDistinct(i);
      BucketIs(was, all, i);
      found, ended, k := ScanBody(i, fn, calls);
      CallsIn(ring, fn, calls, k, ended);
      ghost var gone := SetOf(ring) - SetOf(Rest(ring, fn, calls, k));
      SeenMore(seen, all, i, ring, k);
      DeletedMore(seen, fn, ring, k);
      EndsMore(seen, fn, ring, k, ended);
      SubBucket(all, ring, gone);
      CountMore(all, Deleted(seen, fn), gone, before, nodes);
    }

    /** dn_ht_scan: one call on each element, or up to the call that asks for the end; exactly the
        elements that were flagged are gone. */
    method Scan(fn: Callback) returns (found: nat, ghost seen: seq<Node>, ghost ended: bool)
      requires Valid()
      modifies this, nodes
      ensures Valid()
      ensures Distinct(seen) && SetOf(seen) <= old(nodes) && (!ended ==> SetOf(seen) == old(nodes))
      ensures Ends(seen, fn, ended)
      ensures nodes == old(nodes) - Deleted(seen, fn) && found == |Deleted(seen, fn)|
    {
      hide Cycle, Placed, TailOf, Index, EndsAt, Ends, Rest, Deleted, Seen, SetOf, Distinct;
      PlacedSize();
      ghost var was, all := rings, nodes;
      found, seen, ended := 0, [], false;
      SeenNone(all, fn);
      var i, calls := 0, 0;
      while i <= mask
        invariant i <= mask + 1 && Valid() && |ht| == |rings| == |was| == mask + 1
        invariant calls == |seen| && Seen(seen, all, i) && Ends(seen, fn, false)
        invariant forall j :: i <= j < |was| ==> rings[j] == was[j]
        invariant nodes == all - Deleted(seen, fn) && Deleted(seen, fn) <= all && found == |Deleted(seen, fn)|
        modifies this, nodes
      {
        SomeTail(rings[i]);
        BucketIs(was, all, i);
        PlacedIn(i);
        RingDistinct(i);
        if ht[i] == null {
          SeenMore(seen, all, i, was[i], 0);
          assert seen + was[i][..0] == seen;
        } else {
          var n, e, k := ScanOne(i, fn, calls, seen, was, all);
          found := found + n;
          seen := seen + was[i][..k];
          calls := calls + k;
          if e {
            ended := true;
            SeenSub(seen, all);
            return;
          }
        }
        i := i + 1;
      }
      SeenAll(seen, all);
    }
  }
}
