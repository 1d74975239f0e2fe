/** The PATRICIA tree of sys/net/radix.c as linked nodes: rn_search, rn_insert, rn_addroute and
  rn_match, for keys of one width and contiguous masks. */
module RadixTree {
  import opened Basics
  import opened RadixTrie
  import opened RadixMarks
  import opened RadixMatch

  /** A radix_node. A leaf object stands for its whole rn_dupedkey chain. */
  class Node {
    const leaf: bool
    const bit: nat         // internal: rn_bit, counted from the start of the key
    const key: Bits        // leaf: rn_key
    ghost const path: Bits
    var left: Node?
    var right: Node?
    var parent: Node?
    var marks: seq<Annot>  // internal: rn_mklist
    var chain: seq<Entry>  // leaf: the rn_dupedkey chain

    constructor Leaf(key: Bits, e: Entry)
      ensures ViewOf(this) == View(true, 0, key, key, null, null, null, [], [e])
    {
      leaf, bit, this.key, path := true, 0, key, key;
      left, right, parent := null, null, null;
      marks, chain := [], [e];
    }

    constructor Inner(bit: nat, ghost path: Bits)
      ensures ViewOf(this) == View(false, bit, [], path, null, null, null, [], [])
    {
      leaf, this.bit, key, this.path := false, bit, [], path;
      left, right, parent := null, null, null;
      marks, chain := [], [];
    }
  }

  /** `r` is the most specific of the routes that cover `v`, if any does. */
  ghost predicate Best(routes: set<Route>, width: nat, v: Bits, r: Option<Route>)
  {
    match r
    case None => forall s :: s in routes ==> !Covers(s, v)
    case Some(best) =>
      && best in routes && Covers(best, v)
      && forall s :: s in routes && Covers(s, v) ==> Rank(s, width) <= Rank(best, width)
  }

  /** The number of bits in the bytes that a mask of `p` bits occupies. */
  function MaskBits(p: nat): nat { (p + 7) / 8 * 8 }

  /** The fields of a node. */
  datatype View = View(leaf: bool, bit: nat, key: Bits, path: Bits, left: Node?, right: Node?, parent: Node?,
                       marks: seq<Annot>, chain: seq<Entry>)

  ghost function ViewOf(n: Node): View
    reads n
  {
    View(n.leaf, n.bit, n.key, n.path, n.left, n.right, n.parent, n.marks, n.chain)
  }

  /** The fields `w` hold what the trie says about their node. */
  ghost predicate ViewOk(t: Trie, nodes: set<Node>, w: View)
  {
    && t.Has(w.path) && w.path in t.up
    && w.parent != null && w.parent in nodes && w.parent.path == t.up[w.path]
    && (w.path in t.kids ==> !w.leaf && w.bit == |w.path| && w.path in t.marks && w.marks == t.marks[w.path]
                             && w.left != null && w.left in nodes && w.left.path == t.kids[w.path].left
                             && w.right != null && w.right in nodes && w.right.path == t.kids[w.path].right)
    && (w.path in t.chain ==> w.leaf && w.key == w.path && w.chain == t.chain[w.path])
  }

  /** What rn_insert does to the fields of a node that was there before. */
  ghost function LinkView(w: View, v: Bits, p: Bits, x: Bits, n: Node): View
    requires |p| < |v|
  {
    var w1 := if w.path == x then w.(parent := n) else w;
    if w.path != p then w1 else if v[|p|] then w1.(right := n) else w1.(left := n)
  }

  lemma LinkOld(t: Trie, u: Trie, nodes: set<Node>, w: View, v: Bits, p: Bits, x: Bits, b: nat, e: Entry, n: Node, tt: Node)
    requires Shape(t) && InsertPos(t, v, p, x, b) && ViewOk(t, nodes, w)
    requires u == InsertTrie(t, v, p, x, b, e) && n.path == v[..b] && tt.path == v
    ensures ViewOk(u, nodes + {n, tt}, LinkView(w, v, p, x, n))
  {
    hide Shape, Agree;
    InsertFresh(t, v, p, x, b);
    OfKid(t, p, v[|p|]);
  }

  lemma LinkNew(t: Trie, u: Trie, nodes: set<Node>, v: Bits, p: Node, x: Node, b: nat, e: Entry, n: Node, tt: Node)
    requires Shape(t) && InsertPos(t, v, p.path, x.path, b) && p in nodes && x in nodes
    requires u == InsertTrie(t, v, p.path, x.path, b, e) && n.path == v[..b] && tt.path == v
    ensures ViewOk(u, nodes + {n, tt}, View(true, 0, v, v, null, null, n, [], [e]))
    ensures ViewOk(u, nodes + {n, tt}, View(false, b, [], v[..b], if v[b] then x else tt, if v[b] then tt else x, p, [], []))
  {
    hide Shape, Agree;
    InsertFresh(t, v, p.path, x.path, b);
  }

  ghost function InitTrie(w: nat): Trie
  {
    Trie(w, map[[] := Kids(Zeros(w), Ones(w))], map[[] := [], Zeros(w) := [], Ones(w) := []], map[[] := []],
         map[Zeros(w) := [Entry(None, true, false)], Ones(w) := [Entry(None, true, false)]])
  }

  lemma InitShape(w: nat)
    requires w > 0
    ensures Shape(InitTrie(w))
  {
    var t := InitTrie(w);
    assert !Zeros(w)[0] && Ones(w)[0];
    assert |Zeros(w)| == |Ones(w)| == w;
    forall l, m | l in t.kids && t.Has(m)
      ensures Guides(t, l, m)
    {
    }
  }

  lemma InitGood(w: nat)
    requires w > 0
    ensures Good(InitTrie(w)) && forall r :: !InTable(InitTrie(w), r)
    ensures Zeros(w) != Ones(w) && Zeros(w) != [] && Ones(w) != []
  {
    InitShape(w);
    hide Shape;
    var t := InitTrie(w);
    assert !Zeros(w)[0] && Ones(w)[0];
    assert t.chain[Zeros(w)][0].root && t.chain[Ones(w)][0].root;
    forall l | l in t.chain
      ensures ChainOk(t, l, None)
    {
      assert EntryOk(t, l, 0, None);
    }
  }

  class Tree {
    const width: nat
    const top: Node
    ghost var t: Trie
    ghost var nodes: set<Node>
    ghost var routes: set<Route>

    ghost predicate NodeOk(n: Node)
      reads `t, `nodes, n
    {
      ViewOk(t, nodes, ViewOf(n))
    }

    /** Every node object holds what the trie says about its label, and no two share one. */
    ghost predicate Rep()
      reads `t, `nodes, nodes
    {
      && t.width == width && width % 8 == 0
      && top in nodes && top.path == []
      && (forall n :: n in nodes ==> NodeOk(n))
      && (forall m, n :: m in nodes && n in nodes && m.path == n.path ==> m == n)
    }

    ghost predicate Valid()
      reads this, nodes
    {
      && Rep() && Good(t)
      && forall r :: r in routes <==> InTable(t, r)
    }

    /** rn_inithead: a top node and two sentinel leaves. */
    constructor (width: nat)
      requires width > 0 && width % 8 == 0
      ensures Valid() && this.width == width && routes == {} && fresh(nodes)
    {
      hide Good, Zeros, Ones, InTable, InitTrie, Rep;
      this.width := width;
      var zeros := new Node.Leaf(Zeros(width), Entry(None, true, false));
      var ones := new Node.Leaf(Ones(width), Entry(None, true, false));
      var n := new Node.Inner(0, []);
      n.left, n.right, n.parent := zeros, ones, n;
      zeros.parent, ones.parent := n, n;
      top := n;
      InitGood(width);
      t := InitTrie(width);
      nodes := {n, zeros, ones};
      routes := {};
      new;
      InitRep(zeros, ones);
    }

    lemma InitRep(zeros: Node, ones: Node)
      requires width > 0 && width % 8 == 0 && t == InitTrie(width) && nodes == {top, zeros, ones}
      requires ViewOf(top) == View(false, 0, [], [], zeros, ones, top, [], [])
      requires ViewOf(zeros) == View(true, 0, Zeros(width), Zeros(width), null, null, top, [], [Entry(None, true, false)])
      requires ViewOf(ones) == View(true, 0, Ones(width), Ones(width), null, null, top, [], [Entry(None, true, false)])
      ensures Rep()
    {
      InitGood(width);
      hide Good, Zeros, Ones, InTable;
    }

    lemma OfNode(n: Node)
      requires Rep() && Shape(t) && n in nodes
      ensures t.Has(n.path) && NodeOk(n)
      ensures (n.leaf <==> n.path in t.chain) && (!n.leaf <==> n.path in t.kids)
      ensures n.parent != null && n.parent in nodes && n.parent.path == t.up[n.path]
      ensures !n.leaf ==> n.left != null && n.left in nodes && n.right != null && n.right in nodes && n.bit == |n.path| < width
      ensures !n.leaf ==> n.left.path == t.Kid(n.path, false) && n.right.path == t.Kid(n.path, true)
      ensures n.leaf ==> n.key == n.path && |n.key| == width && n.chain == t.chain[n.path]
      ensures !n.leaf ==> n.path in t.marks && n.marks == t.marks[n.path]
    {
      assert NodeOk(n);
      hide Shape;
      if n.path in t.chain {
        OfChain(t, n.path);
      }
      if n.path in t.kids {
        OfKid(t, n.path, false);
      }
    }

    /** rn_search. */
    method Search(v: Bits) returns (x: Node)
      requires Rep() && Shape(t) && |v| == width
      ensures x in nodes && x.leaf && x.path in t.chain && Tracks(t, v, x.path)
    {
      hide Shape, NodeOk;
      x := top;
      StartTracks(t, v);
      OfNode(x);
      while !x.leaf
        invariant x in nodes && Tracks(t, v, x.path) && |x.path| <= width
        decreases width - |x.path|, !x.leaf
      {
        OfNode(x);
        SearchStep(t, v, x.path);
        OfKid(t, x.path, v[x.bit]);
        if v[x.bit] {
          x := x.right;
        } else {
          x := x.left;
        }
      }
      OfNode(x);
    }

    /** The pointer surgery of rn_insert: a new leaf and a new internal node between `p` and `x`. */
    static method LinkPointers(v: Bits, e: Entry, p: Node, x: Node, b: nat) returns (tt: Node, n: Node)
      requires p.bit == |p.path| < |v| && b < |v| && p.path != x.path
      modifies p`left, p`right, x`parent
      ensures fresh(tt) && fresh(n)
      ensures ViewOf(tt) == View(true, 0, v, v, null, null, n, [], [e])
      ensures ViewOf(n) == View(false, b, [], v[..b], if v[b] then x else tt, if v[b] then tt else x, p, [], [])
      ensures ViewOf(p) == LinkView(old(ViewOf(p)), v, p.path, x.path, n)
      ensures ViewOf(x) == LinkView(old(ViewOf(x)), v, p.path, x.path, n)
    {
      tt := new Node.Leaf(v, e);
      n := new Node.Inner(b, v[..b]);
      tt.parent := n;
      if v[b] {
        n.left, n.right := x, tt;
      } else {
        n.left, n.right := tt, x;
      }
      if v[p.bit] {
        p.right := n;
      } else {
        p.left := n;
      }
      n.parent := p;
      x.parent := n;
    }

    /** The node objects before the surgery, with their fields. */
    ghost predicate Linked(nodes0: set<Node>, views: map<Node, View>, v: Bits, p: Bits, x: Bits, n: Node)
      requires |p| < |v|
      reads nodes0
    {
      views.Keys == nodes0 && forall m :: m in nodes0 ==> ViewOf(m) == LinkView(views[m], v, p, x, n)
    }

    ghost predicate ViewsOk(views: map<Node, View>)
      reads this
    {
      && views.Keys == nodes && t.width == width && width % 8 == 0
      && top in nodes && top.path == []
      && (forall n :: n in nodes ==> views[n].path == n.path && ViewOk(t, nodes, views[n]))
      && (forall m, n :: m in nodes && n in nodes && m.path == n.path ==> m == n)
    }

    ghost function Views(): (w: map<Node, View>)
      reads this, nodes
    {
      map n | n in nodes :: ViewOf(n)
    }

    lemma RepViews()
      requires Rep()
      ensures ViewsOk(Views())
    {
      hide ViewOk;
      assert forall n :: n in nodes ==> NodeOk(n);
    }

    method LinkNodes(v: Bits, e: Entry, p: Node, x: Node, b: nat, ghost views: map<Node, View>) returns (tt: Node, n: Node)
      requires views == Views() && p in nodes && x in nodes
      requires forall m :: m in nodes && m.path == p.path ==> m == p
      requires forall m :: m in nodes && m.path == x.path ==> m == x
      requires p.bit == |p.path| < |v| && b < |v| && p.path != x.path
      modifies p`left, p`right, x`parent
      ensures fresh(tt) && fresh(n)
      ensures ViewOf(tt) == View(true, 0, v, v, null, null, n, [], [e])
      ensures ViewOf(n) == View(false, b, [], v[..b], if v[b] then x else tt, if v[b] then tt else x, p, [], [])
      ensures Linked(nodes, views, v, p.path, x.path, n)
    {
      hide ViewOk;
      tt, n := LinkPointers(v, e, p, x, b);
    }

    lemma LinkRep(t0: Trie, nodes0: set<Node>, views: map<Node, View>, v: Bits, e: Entry, p: Node, x: Node, b: nat, tt: Node, n: Node)
      requires Shape(t0) && InsertPos(t0, v, p.path, x.path, b) && p in nodes0 && x in nodes0
      requires t0.width == width && width % 8 == 0 && top in nodes0 && top.path == []
      requires forall m :: m in nodes0 ==> m in views && views[m].path == m.path && ViewOk(t0, nodes0, views[m])
      requires forall k, m :: k in nodes0 && m in nodes0 && k.path == m.path ==> k == m
      requires t == InsertTrie(t0, v, p.path, x.path, b, e) && nodes == nodes0 + {n, tt}
      requires ViewOf(tt) == View(true, 0, v, v, null, null, n, [], [e])
      requires ViewOf(n) == View(false, b, [], v[..b], if v[b] then x else tt, if v[b] then tt else x, p, [], [])
      requires Linked(nodes0, views, v, p.path, x.path, n)
      ensures Rep()
    {
      hide Shape, InsertTrie, ViewOk, LinkView, Agree;
      InsertFresh(t0, v, p.path, x.path, b);
      InsertedWidth(t0, v, p.path, x.path, b, e);
      LinkNew(t0, t, nodes0, v, p, x, b, e, n, tt);
      forall m | m in nodes0
        ensures ViewOk(t, nodes, ViewOf(m)) && t0.Has(m.path)
      {
        LinkOld(t0, t, nodes0, views[m], v, p.path, x.path, b, e, n, tt);
        ViewHas(t0, nodes0, views[m]);
      }
    }

    /** rn_insert's update of the tree for a key that is not there. */
    method Link(v: Bits, e: Entry, p: Node, x: Node, b: nat) returns (tt: Node)
      requires Rep() && Shape(t) && p in nodes && x in nodes && InsertPos(t, v, p.path, x.path, b)
      modifies `t, `nodes, p`left, p`right, x`parent
      ensures Rep() && t == InsertTrie(old(t), v, p.path, x.path, b, e) && fresh(nodes - old(nodes))
      ensures tt in nodes && tt.path == v
    {
      hide Shape, InsertTrie, ViewOk, LinkView, Agree, NodeOk, Linked;
      OfNode(p);
      OfNode(x);
      OfKid(t, p.path, v[|p.path|]);
      RepViews();
      ghost var t0, nodes0, views := t, nodes, Views();
      var n;
      tt, n := LinkNodes(v, e, p, x, b, views);
      t := InsertTrie(t, v, p.path, x.path, b, e);
      nodes := nodes + {n, tt};
      LinkRep(t0, nodes0, views, v, e, p, x, b, tt, n);
    }

    method SetMarks(n: Node, ms: seq<Annot>)
      requires Rep() && n in nodes && n.path in t.kids && n.path in t.marks
      modifies `t, n`marks
      ensures Rep() && t == old(t).(marks := old(t).marks[n.path := ms]) && n.marks == ms
    {
      hide ViewOk;
      ghost var t0 := t;
      n.marks := ms;
      t := t.(marks := t.marks[n.path := ms]);
      forall m | m in nodes
        ensures NodeOk(m)
      {
        assert old(NodeOk(m));
        MarksView(t0, nodes, old(ViewOf(m)), n.path, ms);
        assert m != n ==> m.path != n.path;
      }
    }

    method SetChain(n: Node, c: seq<Entry>)
      requires Rep() && n in nodes && n.path in t.chain
      modifies `t, n`chain
      ensures Rep() && t == old(t).(chain := old(t).chain[n.path := c]) && n.chain == c
    {
      hide ViewOk;
      ghost var t0 := t;
      n.chain := c;
      t := t.(chain := t.chain[n.path := c]);
      forall m | m in nodes
        ensures NodeOk(m)
      {
        assert old(NodeOk(m));
        ChainView(t0, nodes, old(ViewOf(m)), n.path, c);
        assert m != n ==> m.path != n.path;
      }
    }

    /** The searches of rn_insert: the leaf with key `v`, or the place for it. */
    method FindPlace(v: Bits) returns (dup: bool, leaf: Node, pn: Node, xn: Node, c: nat)
      requires Rep() && Shape(t) && |v| == width
      ensures leaf in nodes && pn in nodes && xn in nodes
      ensures dup <==> v in t.chain
      ensures dup ==> leaf.path == v
      ensures !dup ==> InsertPos(t, v, pn.path, xn.path, c)
    {
      hide Shape, NodeOk, InsertPos, Tracks, Descends;
      leaf := Search(v);
      OfNode(leaf);
      SearchFinds(t, v, leaf.path);
      pn, xn, c := top, top, 0;
      while c < width && leaf.key[c] == v[c]
        invariant 0 <= c <= width && Agree(leaf.key, v, c)
      {
        c := c + 1;
      }
      if c == width {
        SameBits(leaf.key, v);
        return true, leaf, pn, xn, c;
      }
      dup := false;
      ghost var k := leaf.path;
      DescendStart(t, v, k, c);
      DescendKid(t, v, k, c, []);
      OfNode(top);
      xn := if v[top.bit] then top.right else top.left;
      while !xn.leaf && xn.bit < c
        invariant pn in nodes && xn in nodes && Descends(t, v, k, c, pn.path)
        invariant pn.path in t.kids && |pn.path| < |v| && xn.path == t.Kid(pn.path, v[|pn.path|]) && |xn.path| <= width
        decreases width - |xn.path|
      {
        OfNode(xn);
        DescendStep(t, v, k, c, pn.path);
        pn := xn;
        DescendKid(t, v, k, c, pn.path);
        OfKid(t, pn.path, v[pn.bit]);
        xn := if v[pn.bit] then pn.right else pn.left;
      }
      OfNode(xn);
      DescendStep(t, v, k, c, pn.path);
    }

    /** rn_insert: find `v`, or enter it with leaf `e` below a new internal node. */
    method RnInsert(v: Bits, e: Entry) returns (dup: bool, tt: Node, ghost p: Bits, ghost x: Bits, ghost b: nat)
      requires Rep() && Shape(t) && |v| == width
      modifies this, nodes
      ensures Rep() && fresh(nodes - old(nodes)) && routes == old(routes)
      ensures tt in nodes && tt.path == v
      ensures dup <==> v in old(t).chain
      ensures dup ==> t == old(t)
      ensures !dup ==> InsertPos(old(t), v, p, x, b) && t == InsertTrie(old(t), v, p, x, b, e)
    {
      hide Shape, NodeOk, InsertTrie;
      var pn, xn, c;
      dup, tt, pn, xn, c := FindPlace(v);
      p, x, b := pn.path, xn.path, c;
      if !dup {
        tt := Link(v, e, pn, xn, c);
      }
    }

    /** "Promote general routes from below" when the sibling is a leaf: annotate the routes of its
        chain that now fit above it. */
    method PromoteLeaf(n: Node, s: Node)
      requires Rep() && Shape(t) && n in nodes && s in nodes && n.path in t.kids && s.path in t.chain
      requires n.path in t.marks && t.marks[n.path] == []
      modifies `t, n`marks, s`chain
      ensures Rep()
      ensures var c := old(t).chain[s.path];
              t == PromoteStep(old(t), n.path, s.path, c, |c|, |n.path|)
    {
      hide Shape, NodeOk;
      OfNode(n);
      OfNode(s);
      ghost var c, u := t.chain[s.path], t;
      var i := 0;
      PromoteStart(t, n.path, s.path, |n.path|);
      while i < |s.chain|
        invariant 0 <= i <= |c| && Rep() && n.path in t.kids && s.path in t.chain && n.path in t.marks
        invariant t == PromoteStep(u, n.path, s.path, c, i, |n.path|)
        invariant s.chain == LiftUpTo(c, i, |n.path|) && n.marks == NewMarks(c, i, |n.path|, s.path)
        decreases |c| - i
      {
        var e := s.chain[i];
        PromoteNext(u, n.path, s.path, c, i, |n.path|);
        if e.mask != None && e.mask.value <= n.bit && !e.lifted {
          SetMarks(n, n.marks + [Annot(e.mask.value, s.key)]);
          SetChain(s, s.chain[i := e.(lifted := true)]);
        }
        i := i + 1;
      }
    }

    /** The same when the sibling is an internal node: the tail of its list moves up. */
    method PromoteInner(n: Node, s: Node)
      requires Rep() && Shape(t) && n in nodes && s in nodes && n.path in t.kids && s.path in t.kids
      requires n.path in t.marks && s.path in t.marks && t.marks[n.path] == [] && n.path != s.path
      modifies `t, n`marks, s`marks
      ensures Rep()
      ensures var ms := old(t).marks[s.path];
              var j := SplitAt(ms, |n.path|);
              t == old(t).(marks := old(t).marks[s.path := ms[..j]][n.path := ms[j..]])
    {
      hide Shape, NodeOk;
      OfNode(n);
      OfNode(s);
      ghost var u := t;
      var ms := s.marks;
      var j := SkipLonger(ms, n.bit);
      SetMarks(s, ms[..j]);
      SetMarks(n, ms[j..]);
    }

    /** The loop that skips over masks whose index is beyond that of the new node. */
    static method SkipLonger(ms: seq<Annot>, b: nat) returns (j: nat)
      ensures j == SplitAt(ms, b)
    {
      j := 0;
      while j < |ms| && ms[j].len > b
        invariant 0 <= j <= |ms| && SplitAt(ms, b) == j + SplitAt(ms[j..], b)
      {
        j := j + 1;
      }
    }

    /** rn_addroute's treatment of a new key after rn_insert. */
    method Promote(tt: Node, ghost t0: Trie, ghost p: Bits, ghost x: Bits, ghost b: nat, ghost e: Entry)
      requires Rep() && Shape(t) && tt in nodes && Shape(t0) && InsertPos(t0, tt.path, p, x, b) && t == InsertTrie(t0, tt.path, p, x, b, e)
      requires t0.Has(x) && t0.marks.Keys == t0.kids.Keys
      modifies `t, nodes`marks, nodes`chain
      ensures Rep() && t == Promoted(t0, tt.path, p, x, b, e)
    {
      hide Shape, NodeOk, InsertTrie, InsertPos;
      PromotePlace(t0, tt.path, p, x, b, e);
      OfNode(tt);
      var n := tt.parent;
      OfNode(n);
      var s: Node := if n.right == tt then n.left else n.right;
      OfNode(s);
      assert s.path == x;
      if s.leaf {
        PromoteLeaf(n, s);
      } else {
        PromoteInner(n, s);
      }
    }

    /** The loop over the rn_dupedkey chain: where a leaf with this mask goes, or that there is one. */
    static method DupPlace(c: seq<Entry>, mask: Option<nat>) returns (found: bool, i: nat)
      requires |c| > 0 && forall k :: 0 < k < |c| ==> c[k].mask != None
      ensures found ==> i < |c| && c[i].mask == mask
      ensures !found ==> DupPos(c, i, mask)
    {
      i := 0;
      found := false;
      while i < |c|
        invariant 0 <= i <= |c| && (mask == None ==> i == 0)
        invariant forall k :: 0 <= k < i ==> c[k].mask != mask && (mask != None && c[k].mask != None ==> c[k].mask.value > mask.value)
      {
        if c[i].mask == mask {
          return true, i;
        }
        if mask == None || (c[i].mask != None && mask.value > c[i].mask.value) {
          return false, i;
        }
        i := i + 1;
      }
    }

    /** The climb of rn_addroute to the highest node that the mask does not end behind. */
    method Climb(l: Node, p: nat) returns (y: Node)
      requires Rep() && Shape(t) && l in nodes && l.path in t.chain && p <= |t.up[l.path]|
      ensures y in nodes && Hosts(t, y.path, l.path, p)
    {
      hide Shape, NodeOk;
      OfNode(l);
      OfUp(t, l.path);
      OfChain(t, l.path);
      y := l.parent;
      OfNode(y);
      OfNode(y.parent);
      HostStep(t, y.path, l.path, p);
      while p <= y.parent.bit && y != top
        invariant y in nodes && y.path in t.kids && y.path in t.up && p <= |y.path|
        invariant Prefix(t.up[y.path], l.path)
        invariant y.parent != null && y.parent in nodes && y.parent.path == t.up[y.path] && y.parent.bit == |y.parent.path|
        invariant y.parent.path in t.kids
        invariant y.path == [] || |t.up[y.path]| < p ==> Hosts(t, y.path, l.path, p)
        invariant y.path != [] ==> |t.up[y.path]| < |y.path|
        decreases |y.path|
      {
        y := y.parent;
        HostStep(t, y.path, l.path, p);
        OfNode(y);
        OfNode(y.parent);
        TopPath(y);
      }
      TopPath(y);
    }

    lemma TopPath(y: Node)
      requires Rep() && y in nodes
      ensures y == top <==> y.path == []
    {
    }

    /** The place for a new annotation in a list from long masks to short ones. */
    method MarkPlace(y: Node, ghost l: Bits, p: nat) returns (j: nat)
      requires Rep() && Shape(t) && Annotated(t, Some(Route(l, Some(p)))) && y in nodes && y.path in t.kids && y.path in t.marks
      requires l in t.chain && ZeroFrom(l, p) && Hosts(t, y.path, l, p)
      ensures MarkPos(t.marks[y.path], j, p) && j <= |t.marks[y.path]|
    {
      hide Shape, NodeOk, Annotated, Hosts;
      OfNode(y);
      j := 0;
      while j < |y.marks|
        invariant 0 <= j <= |y.marks|
        invariant forall i :: 0 <= i < j ==> y.marks[i].len > p
      {
        if y.marks[j].len < p { return; }
        NoSameMark(t, l, p, y.path, j);
        if y.marks[j].len == p {
          assert false;  // "Non-unique normal route, mask not entered"
        }
        j := j + 1;
      }
    }

    /** "Add new route to highest possible ancestor's list". */
    method Lift(l: Node, i: nat, mask: Option<nat>)
      requires Rep() && Shape(t) && l in nodes && l.path in t.chain && i < |t.chain[l.path]|
      requires Annotated(t, Some(Route(l.path, mask))) && t.chain[l.path][i].mask == mask && InChain(t, l.path, mask)
      requires mask != None ==> ZeroFrom(l.path, mask.value)
      modifies `t, nodes`marks, nodes`chain
      ensures Rep() && Good(t) && SameTable(old(t), t)
    {
      hide Shape, NodeOk, Annotated, Good, MarkPos, InChain, SameTable;
      OfNode(l);
      OfUp(t, l.path);
      OfNode(l.parent);
      SameTableSelf(t);
      if mask == None || mask.value > l.parent.bit {
        NoLiftGood(t, l.path, mask);
        return;
      }
      var p := mask.value;
      var y := Climb(l, p);
      HostInKids(t, y.path, l.path, p);
      var j := MarkPlace(y, l.path, p);
      OfNode(y);
      ghost var t0 := t;
      LiftGood(t, l.path, i, p, y.path, j);
      LiftTable(t, l.path, i, p, y.path, j);
      SetMarks(y, y.marks[..j] + [Annot(p, l.key)] + y.marks[j..]);
      SetChain(l, l.chain[i := l.chain[i].(lifted := true)]);
      assert t == LiftTrie(t0, l.path, i, p, y.path, j);
    }

    /** rn_addroute. False means that the route is already there, or that it is a host route to one
        of the two sentinel keys, which rn_addroute takes for a duplicate of the sentinel. */
    method AddRoute(v: Bits, mask: Option<nat>) returns (ok: bool)
      requires Valid() && |v| == width && (mask != None ==> mask.value <= width && ZeroFrom(v, mask.value))
      modifies this, nodes
      ensures Valid() && fresh(nodes - old(nodes))
      ensures ok <==> Route(v, mask) !in old(routes) && !(mask == None && (v == Zeros(width) || v == Ones(width)))
      ensures routes == if ok then old(routes) + {Route(v, mask)} else old(routes)
    {
      hide Shape, NodeOk, Annotated, InTable, InsertPos, Promoted, InsertTrie, SameTable, DupTrie, DupPos;
      var e := Entry(mask, false, false);
      ghost var t0 := t;
      var dup, tt;
      ghost var p, x, b;
      dup, tt, p, x, b := RnInsert(v, e);
      var i := 0;
      if dup {
        OfNode(tt);
        HeadOnly(t, v);
        RootIsHead(t);
        var found;
        found, i := DupPlace(tt.chain, mask);
        if found {
          FoundDup(t, v, i);
          return false;
        }
        DupAnnotated(t, v, i, e);
        DupTable(t, v, i, e);
        SetChain(tt, tt.chain[..i] + [e] + tt.chain[i..]);
        IsDupTrie(t0, v, i, e);
      } else {
        PromotedAnnotated(t0, v, p, x, b, e);
        PromotedTable(t0, v, p, x, b, e);
        InsertKeepsShape(t0, v, p, x, b, e);
        RootIsHead(t0);
        Promote(tt, t0, p, x, b, e);
      }
      ghost var t1 := t;
      routes := routes + {Route(v, mask)};
      Lift(tt, i, mask);
      AddedTable(t0, t1, t, Route(v, mask));
      ok := true;
    }

    /** rn_search_m from the top with the empty mask: no bit test succeeds, so it goes left. */
    method SearchEmptyMask() returns (x: Node)
      requires Rep() && Good(t)
      ensures x in nodes && x.leaf && x.path == Zeros(width) && x.path in t.chain
    {
      hide Shape, NodeOk, Annotated;
      x := top;
      StartTracks(t, Zeros(width));
      RootIsHead(t);
      OfNode(x);
      while !x.leaf
        invariant x in nodes && Tracks(t, Zeros(width), x.path) && |x.path| <= width
        decreases width - |x.path|, !x.leaf
      {
        OfNode(x);
        SearchStep(t, Zeros(width), x.path);
        OfKid(t, x.path, false);
        x := x.left;
      }
      OfNode(x);
      SearchFinds(t, Zeros(width), x.path);
    }

    /** The search of an rn_dupedkey chain for the leaf with the empty mask. */
    method FindEmptyMask(x: Node) returns (found: bool)
      requires Rep() && Good(t) && x in nodes && x.path in t.chain
      ensures InChain(t, x.path, Some(0)) ==> found
    {
      hide Shape, NodeOk, Annotated;
      OfNode(x);
      HeadOnly(t, x.path);
      var i := 0;
      while i < |x.chain|
        invariant 0 <= i <= |x.chain| && forall k :: 0 <= k < i ==> x.chain[k].mask != Some(0)
      {
        if x.chain[i].mask == Some(0) {
          return true;
        }
        i := i + 1;
      }
      found := false;
    }

    /** The part of rn_match that walks the chain of the leaf. Masks of length 0 are not RNF_NORMAL
        and go through rn_satisfies_leaf, which compares no bit. */
    method MatchChain(x: Node, b: nat) returns (i: nat)
      requires Rep() && Good(t) && x in nodes && x.path in t.chain
      ensures i <= |t.chain[x.path]|
      ensures forall k :: 0 <= k < i && t.chain[x.path][k].mask != None ==> b < t.chain[x.path][k].mask.value
      ensures i < |t.chain[x.path]| ==> t.chain[x.path][i].mask != None && t.chain[x.path][i].mask.value <= b
    {
      hide Shape, NodeOk, Annotated;
      OfNode(x);
      HeadOnly(t, x.path);
      i := if x.chain[0].mask == None then 1 else 0;
      while i < |x.chain|
        invariant i <= |x.chain| && (i == 0 ==> x.chain[0].mask != None)
        invariant forall k :: 0 <= k < i && x.chain[k].mask != None ==> b < x.chain[k].mask.value
      {
        var len := x.chain[i].mask.value;
        if len > 0 {
          if len <= b { return; }
        } else {
          return;
        }
        i := i + 1;
      }
    }

    /** The masks annotated at one node of the climb, in order. */
    method MatchMarks(n: Node, ghost v: Bits, ghost x: Bits, b: nat) returns (r: Option<Route>)
      requires Rep() && n in nodes && n.path in t.kids && n.path in t.marks && Prefix(n.path, x)
      requires Missed(t, v, x, b) && ClimbMisses(t, x, b, |n.path|)
      ensures r != None ==> Longest(t, v, r)
      ensures r == None ==> ClimbMisses(t, x, b, |n.path| - 1)
    {
      hide Shape, NodeOk, Annotated, Longest, ClimbMisses, ChainMisses, Missed;
      MissedIsGood(t, v, x, b);
      OfNode(n);
      var j := 0;
      while j < |n.marks|
        invariant 0 <= j <= |n.marks| && forall k :: 0 <= k < j ==> b < n.marks[k].len
      {
        var m := n.marks[j];
        if m.len > 0 {
          if m.len <= b {
            MissedHit(t, v, x, b, n.path, j);
            return Some(Route(m.key, Some(m.len)));
          }
        } else {
          EmptyMark(t, n.path, j);
          MissedHit(t, v, x, b, n.path, j);
          var z := SearchEmptyMask();
          OfNode(z);
          var found := FindEmptyMask(z);
          if found {
            return Some(Route(z.key, Some(0)));
          }
        }
        j := j + 1;
      }
      r := None;
      ClimbOn(t, x, b, n.path);
    }

    /** The do-while loop of rn_match from the leaf's parent up to the top. */
    method MatchClimb(x: Node, v: Bits, b: nat) returns (r: Option<Route>)
      requires Rep() && x in nodes && x.path in t.chain && Missed(t, v, x.path, b)
      ensures Longest(t, v, r)
    {
      hide Shape, NodeOk, Annotated, Longest, ClimbMisses, ChainMisses, Missed;
      MissedIsGood(t, v, x.path, b);
      OfNode(x);
      ClimbStart(t, x.path, b);
      var n := x.parent;
      OfNode(n);
      while true
        invariant n in nodes && n.path in t.kids && n.path in t.marks && Prefix(n.path, x.path)
        invariant ClimbMisses(t, x.path, b, |n.path|)
        decreases |n.path|
      {
        r := MatchMarks(n, v, x.path, b);
        if r != None { return; }
        TopPath(n);
        if n == top { break; }
        ClimbUp(t, x.path, b, n.path);
        OfNode(n);
        n := n.parent;
        OfNode(n);
      }
      ClimbEnd(t, v, x.path, b);
    }

    /** rn_match. The answer is the longest match, except that looking up the all-ones key gives
        nothing unless that very key was entered. */
    method Match(v: Bits) returns (r: Option<Route>)
      requires Valid() && |v| == width
      ensures Best(routes, width, v, r) <==>
                v != Ones(width) || Route(v, Some(width)) in routes || forall s :: s in routes ==> !Covers(s, v)
      ensures v == Ones(width) ==> r == if Route(v, Some(width)) in routes then Some(Route(v, Some(width))) else None
    {
      hide Shape, NodeOk, Annotated, Longest, Best, Tracks, Covers, InTable;
      var x := Search(v);
      OfNode(x);
      HeadOnly(t, x.path);
      FoundLeaf(t, v, x.path);
      var head := x.chain[0];
      var vlen := if head.mask == None then width else MaskBits(head.mask.value);
      MaskFits(t, x.path);
      var c := 0;
      while c < vlen && v[c] == x.key[c]
        invariant 0 <= c <= vlen && Agree(x.key, v, c)
      {
        c := c + 1;
      }
      if c == vlen {
        if head.root {
          r := if |x.chain| > 1 then Some(Route(x.key, x.chain[1].mask)) else None;
          RootAnswer(t, routes, v, x.path, c);
        } else {
          r := Some(Route(x.key, head.mask));
          ExactHead(t, v, x.path, vlen);
          AnyAnswer(t, routes, v, r, x.path, vlen);
        }
        return;
      }
      var i := MatchChain(x, c);
      if i < |x.chain| {
        ChainHit(t, v, x.path, c, i);
        r := Some(Route(x.key, x.chain[i].mask));
      } else {
        IsMissed(t, v, x.path, c);
        r := MatchClimb(x, v, c);
      }
      NotOnes(t, v, x.path, c);
      LongestIsBest(t, routes, v, r);
    }
  }

  /** The exception is real: with only a default route, "no route" is the wrong answer for the
      all-ones key. */
  lemma AllOnesMissesDefault()
    ensures !Best({Route(Zeros(8), Some(0))}, 8, Ones(8), None)
  {
    assert Covers(Route(Zeros(8), Some(0)), Ones(8));
  }

  /** The leaf that rn_search found differs from `v` first at bit `b`, and its chain has no route
      for `v`. */
  ghost predicate Missed(t: Trie, v: Bits, x: Bits, b: nat)
  {
    Found(t, v, x) && b < |v| && b < |x| && Agree(x, v, b) && x[b] != v[b] && ChainMisses(t, x, b)
  }

  lemma MissedIsGood(t: Trie, v: Bits, x: Bits, b: nat)
    requires Missed(t, v, x, b)
    ensures Good(t) && x in t.chain
  {
  }

  lemma IsMissed(t: Trie, v: Bits, x: Bits, b: nat)
    requires Found(t, v, x) && b < |v| && b < |x| && Agree(x, v, b) && x[b] != v[b]
    requires forall k :: 0 <= k < |t.chain[x]| && t.chain[x][k].mask != None ==> b < t.chain[x][k].mask.value
    ensures Missed(t, v, x, b)
  {
  }

  lemma MissedHit(t: Trie, v: Bits, x: Bits, b: nat, n: Bits, j: nat)
    requires Missed(t, v, x, b) && n in t.marks && Prefix(n, x) && ClimbMisses(t, x, b, |n|)
    requires j < |t.marks[n]| && t.marks[n][j].len <= b && forall k :: 0 <= k < j ==> b < t.marks[n][k].len
    ensures var a := t.marks[n][j]; Longest(t, v, Some(Route(a.key, Some(a.len))))
  {
    hide Shape, Annotated, ClimbMisses, ChainMisses, Longest, Tracks;
    MarkHit(t, v, x, b, n, j);
  }

  /** Only the default route has an empty mask, and its key is all zeros. */
  lemma EmptyMark(t: Trie, n: Bits, j: nat)
    requires Good(t) && n in t.marks && j < |t.marks[n]| && t.marks[n][j].len == 0
    ensures t.marks[n][j].key == Zeros(t.width) && InChain(t, Zeros(t.width), Some(0))
  {
    hide Shape, Annotated;
    var a := t.marks[n][j];
    OfMark(t, n, j, None);
    MarkKey(t, a.key, 0, None);
    OfChain(t, a.key);
    assert a.key == Zeros(t.width);
  }

  /** One node of the climb is done. */
  lemma ClimbOn(t: Trie, x: Bits, b: nat, n: Bits)
    requires n in t.marks && Prefix(n, x) && ClimbMisses(t, x, b, |n|) && forall k :: 0 <= k < |t.marks[n]| ==> b < t.marks[n][k].len
    ensures ClimbMisses(t, x, b, |n| - 1)
  {
    forall m, j: nat | m in t.marks && Prefix(m, x) && |n| - 1 < |m| && j < |t.marks[m]|
      ensures b < t.marks[m][j].len
    {
      if |m| == |n| {
        SameBits(m, n);
      }
    }
  }

  /** Nodes above a leaf are its parent or above that. */
  lemma ClimbStart(t: Trie, x: Bits, b: nat)
    requires Shape(t) && x in t.chain
    ensures x in t.up && t.up[x] in t.kids && t.up[x] in t.marks && Prefix(t.up[x], x) && ClimbMisses(t, x, b, |t.up[x]|)
  {
    OfFields(t);
    OfUp(t, x);
    OfChain(t, x);
    hide Shape;
    forall n | n in t.marks && Prefix(n, x)
      ensures |n| <= |t.up[x]|
    {
      Deepest(t, x, n);
    }
  }

  /** Between a node and its parent there is none. */
  lemma ClimbUp(t: Trie, x: Bits, b: nat, n: Bits)
    requires Shape(t) && n in t.kids && n != [] && Prefix(n, x) && ClimbMisses(t, x, b, |n| - 1)
    ensures n in t.up && t.up[n] in t.kids && t.up[n] in t.marks && Prefix(t.up[n], x) && |t.up[n]| < |n|
    ensures ClimbMisses(t, x, b, |t.up[n]|)
  {
    hide Shape;
    OfFields(t);
    OfUp(t, n);
    forall m, j: nat | m in t.marks && Prefix(m, x) && |t.up[n]| < |m| && j < |t.marks[m]|
      ensures b < t.marks[m][j].len
    {
      if |m| < |n| {
        OfGuide(t, t.up[n], m);
      }
    }
  }

  lemma ClimbEnd(t: Trie, v: Bits, x: Bits, b: nat)
    requires Missed(t, v, x, b) && ClimbMisses(t, x, b, -1)
    ensures Longest(t, v, None)
  {
    hide Shape, Annotated, ClimbMisses, ChainMisses, Longest, Tracks;
    NoHit(t, v, x, b);
  }

  lemma FoundLeaf(t: Trie, v: Bits, x: Bits)
    requires Good(t) && |v| == t.width && x in t.chain && Tracks(t, v, x)
    ensures Found(t, v, x)
  {
  }

  lemma MaskFits(t: Trie, x: Bits)
    requires Good(t) && x in t.chain && t.width % 8 == 0
    ensures |t.chain[x]| > 0 && (t.chain[x][0].mask != None ==> t.chain[x][0].mask.value <= MaskBits(t.chain[x][0].mask.value) <= t.width)
    ensures t.chain[x][0].root ==> t.chain[x][0].mask == None && (x == Zeros(t.width) || x == Ones(t.width))
  {
    hide Shape, Annotated;
    HeadOnly(t, x);
    OfEntry(t, x, 0, None);
  }

  lemma LongestIsBest(t: Trie, routes: set<Route>, v: Bits, r: Option<Route>)
    requires forall s :: s in routes <==> InTable(t, s)
    ensures Longest(t, v, r) <==> Best(routes, t.width, v, r)
  {
    hide InTable, Covers;
  }

  /** A leaf without sentinel that matches exactly answers as rn_match should. */
  lemma AnyAnswer(t: Trie, routes: set<Route>, v: Bits, r: Option<Route>, x: Bits, n: nat)
    requires Found(t, v, x) && |t.chain[x]| > 0 && !t.chain[x][0].root && forall s :: s in routes <==> InTable(t, s)
    requires Longest(t, v, r)
    ensures Best(routes, t.width, v, r) && v != Ones(t.width)
  {
    hide Shape, Annotated, Longest, Best, InTable, Covers;
    LongestIsBest(t, routes, v, r);
    RootIsHead(t);
    SearchFinds(t, v, x);
  }

  /** A leaf that does not match exactly is not the all-ones sentinel. */
  lemma NotOnes(t: Trie, v: Bits, x: Bits, b: nat)
    requires Found(t, v, x) && b < |v| && b < |x| && x[b] != v[b]
    ensures v != Ones(t.width)
  {
    hide Shape, Annotated;
    RootIsHead(t);
    SearchFinds(t, v, x);
  }

  /** What rn_match returns when it hits a sentinel exactly. */
  lemma RootAnswer(t: Trie, routes: set<Route>, v: Bits, x: Bits, n: nat)
    requires Found(t, v, x) && |t.chain[x]| > 0 && t.chain[x][0].root && n == t.width && Agree(x, v, n)
    requires forall s :: s in routes <==> InTable(t, s)
    ensures var r := if |t.chain[x]| > 1 then Some(Route(x, t.chain[x][1].mask)) else None;
            && (Best(routes, t.width, v, r) <==>
                  v != Ones(t.width) || Route(v, Some(t.width)) in routes || forall s :: s in routes ==> !Covers(s, v))
            && (v == Ones(t.width) ==> r == if Route(v, Some(t.width)) in routes then Some(Route(v, Some(t.width))) else None)
  {
    hide Shape, Annotated, InTable, Covers;
    OfChain(t, x);
    SameBits(x, v);
    ExactRoot(t, v, x);
    var r := if |t.chain[x]| > 1 then Some(Route(x, t.chain[x][1].mask)) else None;
    LongestIsBest(t, routes, v, r);
    if |t.chain[x]| > 1 && v == Ones(t.width) {
      NonRoot(t, x, 1);
    }
  }

  lemma NonRoot(t: Trie, x: Bits, i: nat)
    requires Annotated(t, None) && x in t.chain && 0 < i < |t.chain[x]|
    ensures InTable(t, Route(x, t.chain[x][i].mask))
  {
    hide Annotated;
    OfOrder(t, x, 0, i, None);
    OfEntry(t, x, i, None);
    EntryInTable(t, x, i);
  }

  /** `u` holds the routes of `t` and `r`. */
  ghost predicate TablePlus(t: Trie, u: Trie, r: Route)
  {
    forall s :: InTable(u, s) <==> InTable(t, s) || s == r
  }

  lemma AddedTable(t0: Trie, t1: Trie, t: Trie, r: Route)
    requires TablePlus(t0, t1, r) && SameTable(t1, t)
    ensures TablePlus(t0, t, r)
  {
    hide InTable;
  }

  /** Every leaf of a chain but the first has a mask. */
  lemma HeadOnly(t: Trie, l: Bits)
    requires Annotated(t, None) && l in t.chain
    ensures |t.chain[l]| > 0 && forall k :: 0 < k < |t.chain[l]| ==> t.chain[l][k].mask != None
  {
    hide Annotated;
    OfChainOk(t, l, None);
    forall k | 0 < k < |t.chain[l]|
      ensures t.chain[l][k].mask != None
    {
      OfOrder(t, l, 0, k, None);
    }
  }

  /** The sentinels head the chains of the all-zeros and the all-ones key. */
  lemma RootIsHead(t: Trie)
    requires Annotated(t, None)
    ensures forall l :: l == Zeros(t.width) || l == Ones(t.width) ==> l in t.chain && |t.chain[l]| > 0 && t.chain[l][0].mask == None && t.chain[l][0].root
  {
    forall l | l == Zeros(t.width) || l == Ones(t.width)
      ensures l in t.chain && |t.chain[l]| > 0 && t.chain[l][0].mask == None && t.chain[l][0].root
    {
      assert HasRoot(t, l);
      hide Annotated;
      var i :| 0 <= i < |t.chain[l]| && t.chain[l][i].root;
      OfEntry(t, l, i, None);
    }
  }

  /** The entry that stopped rn_addroute is the same route or a sentinel. */
  lemma FoundDup(t: Trie, l: Bits, i: nat)
    requires Annotated(t, None) && l in t.chain && i < |t.chain[l]|
    ensures InTable(t, Route(l, t.chain[l][i].mask)) || (t.chain[l][i].mask == None && (l == Zeros(t.width) || l == Ones(t.width)))
  {
    hide Annotated;
    OfEntry(t, l, i, None);
    if !t.chain[l][i].root {
      EntryInTable(t, l, i);
    }
  }

  lemma DupTable(t: Trie, l: Bits, i: nat, e: Entry)
    requires Annotated(t, None) && l in t.chain && DupPos(t.chain[l], i, e.mask) && !e.root && i <= |t.chain[l]|
    ensures TablePlus(t, DupTrie(t, l, i, e), Route(l, e.mask)) && !InTable(t, Route(l, e.mask))
    ensures i < |DupTrie(t, l, i, e).chain[l]| && DupTrie(t, l, i, e).chain[l][i] == e && InChain(DupTrie(t, l, i, e), l, e.mask)
    ensures e.mask == None ==> |t.chain[l]| > 0 ==> t.chain[l][0].mask != None
  {
    hide Annotated, InChain;
    DupNew(t, l, i, e);
    forall s
      ensures InTable(DupTrie(t, l, i, e), s) <==> InTable(t, s) || s == Route(l, e.mask)
    {
      DupInChain(t, l, i, e, s.key, s.mask);
    }
    DupInChain(t, l, i, e, l, e.mask);
  }

  lemma IsDupTrie(t: Trie, l: Bits, i: nat, e: Entry)
    requires l in t.chain && i <= |t.chain[l]|
    ensures DupTrie(t, l, i, e) == t.(chain := t.chain[l := t.chain[l][..i] + [e] + t.chain[l][i..]])
  {
  }

  lemma PromotedTable(t: Trie, v: Bits, p: Bits, x: Bits, b: nat, e: Entry)
    requires Shape(t) && InsertPos(t, v, p, x, b) && t.Has(x) && t.marks.Keys == t.kids.Keys && !e.root
    ensures TablePlus(t, Promoted(t, v, p, x, b, e), Route(v, e.mask)) && !InTable(t, Route(v, e.mask)) && v !in t.chain
    ensures var u := Promoted(t, v, p, x, b, e); v in u.chain && u.chain[v] == [e] && InChain(u, v, e.mask)
  {
    hide Shape;
    PromotedFields(t, v, p, x, b, e);
    var u := Promoted(t, v, p, x, b, e);
    assert u.chain[v][0] == e;
    forall s
      ensures InTable(u, s) <==> InTable(t, s) || s == Route(v, e.mask)
    {
      if s.key != v {
        PromotedInChain(t, v, p, x, b, e, s.key, s.mask);
      }
    }
  }

  /** Both tries hold the same routes. */
  ghost predicate SameTable(t: Trie, u: Trie)
  {
    forall r :: InTable(u, r) <==> InTable(t, r)
  }

  lemma SameTableSelf(t: Trie)
    ensures SameTable(t, t)
  {
  }

  lemma HostInKids(t: Trie, y: Bits, l: Bits, p: nat)
    requires Shape(t) && Hosts(t, y, l, p)
    ensures y in t.kids && y in t.marks
  {
  }

  lemma LiftTable(t: Trie, l: Bits, i: nat, p: nat, y: Bits, j: nat)
    requires LiftPos(t, l, i, p, y, j)
    ensures SameTable(t, LiftTrie(t, l, i, p, y, j))
  {
    hide InChain;
    forall r
      ensures InTable(LiftTrie(t, l, i, p, y, j), r) <==> InTable(t, r)
    {
      LiftInChain(t, l, i, p, y, j, r.key, r.mask);
    }
  }

  lemma PromotePlace(t0: Trie, v: Bits, p: Bits, x: Bits, b: nat, e: Entry)
    requires Shape(t0) && InsertPos(t0, v, p, x, b) && t0.Has(x) && t0.marks.Keys == t0.kids.Keys
    ensures var u := InsertTrie(t0, v, p, x, b, e);
            && v in u.up && u.up[v] == v[..b] && v[..b] in u.kids && v[..b] in u.marks && u.marks[v[..b]] == []
            && u.Kid(v[..b], v[b]) == v && u.Kid(v[..b], !v[b]) == x && |v[..b]| == b
            && x != v && x != v[..b] && (x in u.kids <==> x in t0.kids) && u.marks.Keys == u.kids.Keys
            && (x in u.chain <==> x in t0.chain)
            && (x in t0.chain ==> x !in t0.kids && u.chain[x] == t0.chain[x])
            && (x in t0.chain ==> Promoted(t0, v, p, x, b, e) == PromoteStep(u, v[..b], x, t0.chain[x], |t0.chain[x]|, b))
            && (x in t0.kids ==> u.marks[x] == t0.marks[x])
    ensures var u := InsertTrie(t0, v, p, x, b, e);
            x in t0.kids ==> var ms := t0.marks[x];
                             Promoted(t0, v, p, x, b, e) == u.(marks := u.marks[x := ms[..SplitAt(ms, b)]][v[..b] := ms[SplitAt(ms, b)..]])
  {
    hide Shape, Agree;
    InsertFresh(t0, v, p, x, b);
    OfKid(t0, p, v[|p|]);
    if x in t0.chain {
      OfChain(t0, x);
    }
  }

  /** The promotion loop after `i` entries of the chain `c`. */
  ghost function PromoteStep(u: Trie, n: Bits, x: Bits, c: seq<Entry>, i: nat, b: nat): Trie
    requires i <= |c|
  {
    u.(marks := u.marks[n := NewMarks(c, i, b, x)], chain := u.chain[x := LiftUpTo(c, i, b)])
  }

  lemma PromoteStart(u: Trie, n: Bits, x: Bits, b: nat)
    requires n in u.marks && u.marks[n] == [] && x in u.chain
    ensures LiftUpTo(u.chain[x], 0, b) == u.chain[x] && PromoteStep(u, n, x, u.chain[x], 0, b) == u
  {
    assert LiftUpTo(u.chain[x], 0, b) == u.chain[x];
  }

  lemma PromoteNext(u: Trie, n: Bits, x: Bits, c: seq<Entry>, i: nat, b: nat)
    requires i < |c|
    ensures LiftUpTo(c, i, b)[i] == c[i]
    ensures Promotable(c[i], b) ==> LiftUpTo(c, i + 1, b) == LiftUpTo(c, i, b)[i := c[i].(lifted := true)]
    ensures !Promotable(c[i], b) ==> LiftUpTo(c, i + 1, b) == LiftUpTo(c, i, b) && NewMarks(c, i + 1, b, x) == NewMarks(c, i, b, x)
    ensures Promotable(c[i], b) ==> NewMarks(c, i + 1, b, x) == NewMarks(c, i, b, x) + [Annot(c[i].mask.value, x)]
    ensures var w := PromoteStep(u, n, x, c, i, b);
            PromoteStep(u, n, x, c, i + 1, b)
              == w.(marks := w.marks[n := NewMarks(c, i + 1, b, x)], chain := w.chain[x := LiftUpTo(c, i + 1, b)])
  {
  }

  lemma DescendKid(t: Trie, v: Bits, k: Bits, b: nat, p: Bits)
    requires Shape(t) && Descends(t, v, k, b, p)
    ensures p in t.kids && |p| < |v| && |t.Kid(p, v[|p|])| <= t.width
  {
    hide Shape;
    OfKid(t, p, v[|p|]);
  }

  lemma MarksView(t: Trie, nodes: set<Node>, w: View, l: Bits, ms: seq<Annot>)
    requires ViewOk(t, nodes, w) && l in t.kids
    ensures ViewOk(t.(marks := t.marks[l := ms]), nodes, if w.path == l then w.(marks := ms) else w)
  {
  }

  lemma ChainView(t: Trie, nodes: set<Node>, w: View, l: Bits, c: seq<Entry>)
    requires ViewOk(t, nodes, w) && l in t.chain
    ensures ViewOk(t.(chain := t.chain[l := c]), nodes, if w.path == l then w.(chain := c) else w)
  {
  }

  lemma InsertedWidth(t: Trie, v: Bits, p: Bits, x: Bits, b: nat, e: Entry)
    requires p in t.kids && b < |v| && |p| < |v|
    ensures InsertTrie(t, v, p, x, b, e).width == t.width && v[..b] != v
  {
  }

  lemma ViewHas(t: Trie, nodes: set<Node>, w: View)
    requires ViewOk(t, nodes, w)
    ensures t.Has(w.path)
  {
  }

  lemma StartTracks(t: Trie, v: Bits)
    ensures Tracks(t, v, [])
  {
  }
}
