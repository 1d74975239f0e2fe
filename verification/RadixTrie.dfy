/** The logical content of the PATRICIA tree of sys/net/radix.c.

  Keys are bit strings of one width. An internal node is identified by the bits on which all
  keys below it agree, so its rn_bit is the length of that label; a leaf is identified by its
  key. All reasoning about the tree is done here, on labels; the pointers are in RadixTree. */
module RadixTrie {
  import opened Basics

  type Bits = seq<bool>

  /** A route: a key and the length of its contiguous mask, or no mask for a host route. */
  datatype Route = Route(key: Bits, mask: Option<nat>)

  /** One leaf of an rn_dupedkey chain. `root` is RNF_ROOT, `lifted` says rn_mklist is set. */
  datatype Entry = Entry(mask: Option<nat>, root: bool, lifted: bool)

  /** A radix_mask: the route it stands for. */
  datatype Annot = Annot(len: nat, key: Bits)

  /** `left`/`right` are the labels of the children. */
  datatype Kids = Kids(left: Bits, right: Bits)

  datatype Trie = Trie(
    width: nat,
    kids: map<Bits, Kids>,          // internal nodes
    up: map<Bits, Bits>,            // rn_parent of every node
    marks: map<Bits, seq<Annot>>,   // rn_mklist of internal nodes
    chain: map<Bits, seq<Entry>>)   // leaves, each with its rn_dupedkey chain
  {
    ghost predicate Has(l: Bits) { l in kids || l in chain }

    ghost function Kid(l: Bits, side: bool): Bits
      requires l in kids
    {
      if side then kids[l].right else kids[l].left
    }
  }

  // ---------------------------------------------------------------- bit strings

  ghost predicate Agree(a: Bits, b: Bits, n: int)
  {
    n <= |a| && n <= |b| && forall i :: 0 <= i < n ==> a[i] == b[i]
  }

  ghost predicate Prefix(a: Bits, b: Bits) { Agree(a, b, |a|) }

  /** `b` properly extends `a`, on the given side. */
  ghost predicate Below(a: Bits, b: Bits, side: bool)
  {
    |a| < |b| && Prefix(a, b) && b[|a|] == side
  }

  lemma SameBits(a: Bits, b: Bits)
    requires |a| == |b| && Agree(a, b, |a|)
    ensures a == b
  {
  }

  // ---------------------------------------------------------------- shape

  /** The child of `l` on `side` extends l's label on that side and points back to it. */
  ghost predicate KidOk(t: Trie, l: Bits, side: bool)
    requires l in t.kids
  {
    var c := t.Kid(l, side);
    t.Has(c) && Below(l, c, side) && c in t.up && t.up[c] == l
  }

  ghost predicate UpOk(t: Trie, l: Bits)
  {
    l in t.up && t.up[l] in t.kids && (if l == [] then t.up[l] == [] else
      |t.up[l]| < |l| && Prefix(t.up[l], l) && t.Kid(t.up[l], l[|t.up[l]|]) == l)
  }

  /** Whatever lies below `l` lies below the child of `l` on its side. */
  ghost predicate Guides(t: Trie, l: Bits, m: Bits)
    requires l in t.kids
  {
    |l| < |m| && Prefix(l, m) ==> Prefix(t.Kid(l, m[|l|]), m)
  }

  /** The PATRICIA invariant: all keys below a node agree before its bit and continue with both
      values of that bit; bits increase downwards. */
  ghost predicate Shape(t: Trie)
  {
    && [] in t.kids && t.width > 0
    && t.up.Keys == t.kids.Keys + t.chain.Keys && t.marks.Keys == t.kids.Keys
    && (forall l :: l in t.kids ==> |l| < t.width && KidOk(t, l, false) && KidOk(t, l, true))
    && (forall l :: l in t.chain ==> |l| == t.width)
    && (forall l :: t.Has(l) ==> UpOk(t, l))
    && (forall l, m :: l in t.kids && t.Has(m) ==> Guides(t, l, m))
  }

  lemma OfKid(t: Trie, l: Bits, side: bool)
    requires Shape(t) && l in t.kids
    ensures |l| < t.width && t.Has(t.Kid(l, side)) && |l| < |t.Kid(l, side)| <= t.width
    ensures Below(l, t.Kid(l, side), side) && t.Kid(l, side) in t.up && t.up[t.Kid(l, side)] == l
  {
    assert KidOk(t, l, side);
    assert t.Kid(l, side) in t.kids || t.Kid(l, side) in t.chain;
  }

  lemma OfUp(t: Trie, l: Bits)
    requires Shape(t) && t.Has(l)
    ensures l in t.up && t.up[l] in t.kids
    ensures l == [] ==> t.up[l] == []
    ensures l != [] ==> |t.up[l]| < |l| && Prefix(t.up[l], l) && t.Kid(t.up[l], l[|t.up[l]|]) == l
  {
    assert UpOk(t, l);
  }

  lemma OfGuide(t: Trie, l: Bits, m: Bits)
    requires Shape(t) && l in t.kids && t.Has(m) && |l| < |m| && Prefix(l, m)
    ensures Prefix(t.Kid(l, m[|l|]), m)
  {
    assert Guides(t, l, m);
  }

  // ---------------------------------------------------------------- searching

  /** As far as node `x` reaches, it agrees with `v` as long as any leaf does. */
  ghost predicate Tracks(t: Trie, v: Bits, x: Bits)
  {
    forall k, n :: k in t.chain && 0 <= n <= |x| && Agree(k, v, n) ==> Agree(x, v, n)
  }

  lemma SearchStep(t: Trie, v: Bits, x: Bits)
    requires Shape(t) && |v| == t.width && x in t.kids && |x| < |v| && Tracks(t, v, x)
    ensures Tracks(t, v, t.Kid(x, v[|x|])) && t.Has(t.Kid(x, v[|x|])) && |t.Kid(x, v[|x|])| > |x|
  {
    hide Shape;
    OfKid(t, x, v[|x|]);
    var c := t.Kid(x, v[|x|]);
    forall k, n | k in t.chain && 0 <= n <= |c| && Agree(k, v, n)
      ensures Agree(c, v, n)
    {
      if n <= |x| {
        assert Agree(x, v, n);
      } else {
        assert Agree(k, v, |x|);
        assert Agree(x, v, |x|);
        OfGuide(t, x, k);
      }
    }
  }

  /** rn_search finds a key iff it is in the tree. */
  lemma SearchFinds(t: Trie, v: Bits, x: Bits)
    requires Shape(t) && |v| == t.width && x in t.chain && Tracks(t, v, x)
    ensures v in t.chain <==> x == v
  {
    if v in t.chain {
      assert Agree(v, v, |v|);
      SameBits(x, v);
    }
  }

  /** Some leaf lies below every node. */
  lemma {:induction false} LeafBelow(t: Trie, l: Bits) returns (k: Bits)
    requires Shape(t) && t.Has(l) && |l| <= t.width
    ensures k in t.chain && Prefix(l, k)
    decreases t.width - |l|
  {
    hide Shape;
    if l in t.chain {
      k := l;
    } else {
      OfKid(t, l, false);
      k := LeafBelow(t, t.Kid(l, false));
    }
  }

  // ---------------------------------------------------------------- inserting a new key

  /** Where rn_insert hangs a new key: `v` leaves the tree between `p` and its child `x`, at bit `b`. */
  ghost predicate InsertPos(t: Trie, v: Bits, p: Bits, x: Bits, b: nat)
  {
    && |v| == t.width && v !in t.chain
    && p in t.kids && |p| < b && b < |v| && Prefix(p, v) && x == t.Kid(p, v[|p|])
    && b < |x| && Agree(x, v, b) && x[b] != v[b]
  }

  /** The loop invariant of rn_insert's second descent; `k` is the closest leaf, which differs from
      `v` first at bit `b`. */
  ghost predicate Descends(t: Trie, v: Bits, k: Bits, b: nat, p: Bits)
  {
    && |v| == t.width && k in t.chain && Tracks(t, v, k)
    && b < |v| && Agree(k, v, b) && b < |k| && k[b] != v[b]
    && p in t.kids && |p| < b && Prefix(p, v)
  }

  lemma NoLeafBeyond(t: Trie, v: Bits, k: Bits, b: nat)
    requires Tracks(t, v, k) && b < |v| && b < |k| && k[b] != v[b]
    ensures forall j :: j in t.chain ==> !Agree(j, v, b + 1)
  {
    forall j | j in t.chain
      ensures !Agree(j, v, b + 1)
    {
      assert Agree(j, v, b + 1) ==> Agree(k, v, b + 1);
    }
  }

  lemma DescendStep(t: Trie, v: Bits, k: Bits, b: nat, p: Bits)
    requires Shape(t) && Descends(t, v, k, b, p)
    ensures var x := t.Kid(p, v[|p|]);
            && t.Has(x) && |p| < |x| <= t.width
            && (x in t.kids && |x| < b ==> Descends(t, v, k, b, x))
            && (!(x in t.kids && |x| < b) ==> InsertPos(t, v, p, x, b))
  {
    hide Shape;
    var x := t.Kid(p, v[|p|]);
    OfKid(t, p, v[|p|]);
    OfGuide(t, p, k);
    OfChain(t, k);
    assert Agree(v, v, |v|);
    assert v in t.chain ==> Agree(k, v, |v|);
    if |x| <= b {
      assert Prefix(x, v);
      if x in t.kids && |x| == b {
        OfKid(t, x, v[b]);
        var j := LeafBelow(t, t.Kid(x, v[b]));
        NoLeafBeyond(t, v, k, b);
        assert false;
      }
      if x in t.chain {
        OfChain(t, x);
      }
    }
  }

  lemma OfChain(t: Trie, l: Bits)
    requires Shape(t) && l in t.chain
    ensures |l| == t.width && l !in t.kids && t.width > 0
  {
  }

  /** The second descent starts at the top: both values of the first bit occur. */
  lemma DescendStart(t: Trie, v: Bits, k: Bits, b: nat)
    requires Shape(t) && |v| == t.width && k in t.chain && Tracks(t, v, k)
    requires b < |v| && Agree(k, v, b) && b < |k| && k[b] != v[b]
    ensures Descends(t, v, k, b, [])
  {
    hide Shape;
    TopBit(t, v[0]);
    var j :| j in t.chain && 0 < |j| && j[0] == v[0];
    assert b == 0 && Agree(j, v, 1) ==> Agree(k, v, 1);
  }

  lemma TopBit(t: Trie, side: bool)
    requires Shape(t)
    ensures exists j :: j in t.chain && 0 < |j| && j[0] == side
    ensures [] in t.kids
  {
    OfKid(t, [], side);
    hide Shape;
    var j := LeafBelow(t, t.Kid([], side));
    assert j in t.chain && 0 < |j| && j[0] == side;
  }

  ghost function InsertTrie(t: Trie, v: Bits, p: Bits, x: Bits, b: nat, e: Entry): Trie
    requires p in t.kids && b < |v| && |p| < |v|
  {
    var n := v[..b];
    var k := t.kids[p];
    Trie(t.width,
         t.kids[n := if v[b] then Kids(x, v) else Kids(v, x)][p := if v[|p|] then k.(right := n) else k.(left := n)],
         t.up[n := p][v := n][x := n],
         t.marks[n := []],
         t.chain[v := [e]])
  }

  /** The label of the new internal node is new. */
  lemma InsertFresh(t: Trie, v: Bits, p: Bits, x: Bits, b: nat)
    requires Shape(t) && InsertPos(t, v, p, x, b)
    ensures !t.Has(v[..b]) && !t.Has(v) && t.Has(x) && x != [] && |x| <= t.width
    ensures t.up.Keys == t.kids.Keys + t.chain.Keys && x in t.up && t.up[x] == p
  {
    var n := v[..b];
    OfKid(t, p, v[|p|]);
    if t.Has(n) {
      OfGuide(t, p, n);
    }
    if v in t.kids {
      OfKid(t, v, false);
    }
  }

  /** The new node has the new leaf and the node that was in its place as children. */
  lemma InsertNewKids(t: Trie, v: Bits, p: Bits, x: Bits, b: nat, e: Entry, side: bool)
    requires Shape(t) && InsertPos(t, v, p, x, b)
    ensures |v[..b]| < t.width && KidOk(InsertTrie(t, v, p, x, b, e), v[..b], side)
  {
    hide Shape;
    InsertFresh(t, v, p, x, b);
  }

  lemma InsertKids(t: Trie, v: Bits, p: Bits, x: Bits, b: nat, e: Entry, l: Bits, side: bool)
    requires Shape(t) && InsertPos(t, v, p, x, b) && l in InsertTrie(t, v, p, x, b, e).kids
    ensures |l| < t.width && KidOk(InsertTrie(t, v, p, x, b, e), l, side)
  {
    hide Shape;
    InsertFresh(t, v, p, x, b);
    if l == v[..b] {
      InsertNewKids(t, v, p, x, b, e, side);
    } else {
      OfKid(t, l, side);
      OfKid(t, p, v[|p|]);
    }
  }

  lemma InsertUps(t: Trie, v: Bits, p: Bits, x: Bits, b: nat, e: Entry, l: Bits)
    requires Shape(t) && InsertPos(t, v, p, x, b) && InsertTrie(t, v, p, x, b, e).Has(l)
    ensures UpOk(InsertTrie(t, v, p, x, b, e), l)
  {
    hide Shape;
    InsertFresh(t, v, p, x, b);
    if l != v[..b] && l != v {
      OfUp(t, l);
    }
  }

  lemma InsertGuides(t: Trie, v: Bits, p: Bits, x: Bits, b: nat, e: Entry, l: Bits, m: Bits)
    requires Shape(t) && InsertPos(t, v, p, x, b)
    requires l in InsertTrie(t, v, p, x, b, e).kids && InsertTrie(t, v, p, x, b, e).Has(m)
    ensures Guides(InsertTrie(t, v, p, x, b, e), l, m)
  {
    hide Shape;
    var n := v[..b];
    InsertFresh(t, v, p, x, b);
    OfKid(t, p, v[|p|]);
    if |l| < |m| && Prefix(l, m) {
      if l == n {
        if m != v {
          OfGuide(t, p, m);
        }
      } else if m != n && m != v {
        OfGuide(t, l, m);
      } else if l != p {
        if |l| > |p| {
          OfGuide(t, p, l);
        } else if |l| == |p| {
          SameBits(l, p);
        } else {
          OfGuide(t, l, p);
        }
      }
    }
  }

  lemma InsertKeepsShape(t: Trie, v: Bits, p: Bits, x: Bits, b: nat, e: Entry)
    requires Shape(t) && InsertPos(t, v, p, x, b)
    ensures Shape(InsertTrie(t, v, p, x, b, e))
  {
    hide KidOk, UpOk, Guides;
    var u := InsertTrie(t, v, p, x, b, e);
    InsertFields(t, v, p, x, b, e);
    forall l | l in u.kids
      ensures |l| < u.width && KidOk(u, l, false) && KidOk(u, l, true)
    {
      InsertKids(t, v, p, x, b, e, l, false);
      InsertKids(t, v, p, x, b, e, l, true);
    }
    forall l | u.Has(l)
      ensures UpOk(u, l)
    {
      InsertUps(t, v, p, x, b, e, l);
    }
    forall l, m | l in u.kids && u.Has(m)
      ensures Guides(u, l, m)
    {
      InsertGuides(t, v, p, x, b, e, l, m);
    }
    hide InsertTrie, InsertPos;
  }

  lemma OfFields(t: Trie)
    requires Shape(t)
    ensures [] in t.kids && t.width > 0
    ensures t.up.Keys == t.kids.Keys + t.chain.Keys && t.marks.Keys == t.kids.Keys
    ensures forall l :: l in t.chain ==> |l| == t.width
  {
  }

  lemma InsertFields(t: Trie, v: Bits, p: Bits, x: Bits, b: nat, e: Entry)
    requires Shape(t) && InsertPos(t, v, p, x, b)
    ensures var u := InsertTrie(t, v, p, x, b, e);
            && [] in u.kids && u.width == t.width > 0
            && u.up.Keys == u.kids.Keys + u.chain.Keys && u.marks.Keys == u.kids.Keys
            && (forall l :: l in u.chain ==> |l| == u.width)
  {
    hide Shape;
    InsertFresh(t, v, p, x, b);
    OfFields(t);
  }

  // ---------------------------------------------------------------- mask annotations

  /** Node `n` is where rn_addroute annotates a route of mask length `p` to `key`: the highest
      node above the key whose bit is not before the end of the mask. */
  ghost predicate Hosts(t: Trie, n: Bits, key: Bits, p: nat)
  {
    n in t.kids && n in t.up && Prefix(n, key) && p <= |n| && (n == [] || |t.up[n]| < p)
  }

  /** Every bit of `key` from `p` on is zero: key & mask == key. */
  ghost predicate ZeroFrom(key: Bits, p: nat)
  {
    forall i :: p <= i < |key| ==> !key[i]
  }

  function Zeros(w: nat): Bits { seq(w, _ => false) }

  function Ones(w: nat): Bits { seq(w, _ => true) }

  /** The route `but` has just been entered in its chain and is not annotated yet. */
  ghost predicate EntryOk(t: Trie, l: Bits, i: nat, but: Option<Route>)
    requires l in t.chain && i < |t.chain[l]| && l in t.up
  {
    var e := t.chain[l][i];
    && (e.root ==> e.mask == None && (l == Zeros(t.width) || l == Ones(t.width)))
    && (e.mask == None ==> i == 0 && !e.lifted)
    && (e.mask != None ==> e.mask.value <= t.width && ZeroFrom(l, e.mask.value)
                           && (e.lifted <==> e.mask.value <= |t.up[l]| && but != Some(Route(l, e.mask))))
  }

  /** A chain: possibly one leaf without mask, then masks from long to short. */
  ghost predicate ChainOk(t: Trie, l: Bits, but: Option<Route>)
    requires l in t.chain && l in t.up
  {
    && |t.chain[l]| > 0
    && (forall i :: 0 <= i < |t.chain[l]| ==> EntryOk(t, l, i, but))
    && (forall i, j :: 0 <= i < j < |t.chain[l]| && t.chain[l][i].mask != None && t.chain[l][j].mask != None ==>
          t.chain[l][i].mask.value > t.chain[l][j].mask.value)
  }

  /** The route of entry `i` of leaf `l` is annotated at its host. */
  ghost predicate Marked(t: Trie, l: Bits, i: nat, n: Bits, but: Option<Route>)
    requires l in t.chain && i < |t.chain[l]|
  {
    var m := t.chain[l][i].mask;
    m != None && Hosts(t, n, l, m.value) && but != Some(Route(l, m)) ==> n in t.marks && Annot(m.value, l) in t.marks[n]
  }

  ghost predicate InChain(t: Trie, key: Bits, mask: Option<nat>)
  {
    key in t.chain && exists i :: 0 <= i < |t.chain[key]| && !t.chain[key][i].root && t.chain[key][i].mask == mask
  }

  /** Annotation `j` of node `n` stands for a route that `n` hosts. */
  ghost predicate MarkOk(t: Trie, n: Bits, j: nat, but: Option<Route>)
    requires n in t.marks && j < |t.marks[n]|
  {
    var a := t.marks[n][j];
    Hosts(t, n, a.key, a.len) && InChain(t, a.key, Some(a.len)) && but != Some(Route(a.key, Some(a.len)))
  }

  ghost predicate Sorted(ms: seq<Annot>)
  {
    forall i, j :: 0 <= i < j < |ms| ==> ms[i].len > ms[j].len
  }

  ghost predicate HasRoot(t: Trie, l: Bits)
  {
    l in t.chain && exists i :: 0 <= i < |t.chain[l]| && t.chain[l][i].root
  }

  /** Every route but `but` is annotated exactly at its host, and lists are sorted from the most
      specific mask to the least. */
  ghost predicate Annotated(t: Trie, but: Option<Route>)
  {
    && t.chain.Keys <= t.up.Keys && t.marks.Keys == t.kids.Keys
    && HasRoot(t, Zeros(t.width)) && HasRoot(t, Ones(t.width))
    && (forall l :: l in t.chain ==> ChainOk(t, l, but))
    && (forall l, i: nat, n :: l in t.chain && i < |t.chain[l]| && n in t.kids ==> Marked(t, l, i, n, but))
    && (forall n, j: nat :: n in t.marks && j < |t.marks[n]| ==> MarkOk(t, n, j, but))
    && (forall n :: n in t.marks ==> Sorted(t.marks[n]))
  }

  ghost predicate Good(t: Trie)
  {
    Shape(t) && Annotated(t, None)
  }

  lemma OfEntry(t: Trie, l: Bits, i: nat, but: Option<Route>)
    requires Annotated(t, but) && l in t.chain && i < |t.chain[l]|
    ensures l in t.up && EntryOk(t, l, i, but)
  {
    assert ChainOk(t, l, but);
  }

  lemma OfOrder(t: Trie, l: Bits, i: nat, j: nat, but: Option<Route>)
    requires Annotated(t, but) && l in t.chain && i < j < |t.chain[l]|
    ensures t.chain[l][j].mask != None
    ensures t.chain[l][i].mask != None ==> t.chain[l][i].mask.value > t.chain[l][j].mask.value
  {
    assert ChainOk(t, l, but);
    assert l in t.up && EntryOk(t, l, j, but);
  }

  lemma OfMarked(t: Trie, l: Bits, i: nat, n: Bits, but: Option<Route>)
    requires Annotated(t, but) && l in t.chain && i < |t.chain[l]| && t.chain[l][i].mask != None
    requires Hosts(t, n, l, t.chain[l][i].mask.value) && but != Some(Route(l, t.chain[l][i].mask))
    ensures n in t.marks && Annot(t.chain[l][i].mask.value, l) in t.marks[n]
  {
    assert Marked(t, l, i, n, but);
  }

  lemma OfMark(t: Trie, n: Bits, j: nat, but: Option<Route>)
    requires Annotated(t, but) && n in t.marks && j < |t.marks[n]|
    ensures var a := t.marks[n][j];
            Hosts(t, n, a.key, a.len) && InChain(t, a.key, Some(a.len)) && but != Some(Route(a.key, Some(a.len)))
  {
    assert MarkOk(t, n, j, but);
  }
}
