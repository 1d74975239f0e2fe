/** What rn_addroute does to the mask annotations, step by step. */
module RadixMarks {
  import opened Basics
  import opened RadixTrie

  /** Only the labels matter for the shape. */
  lemma ShapeDepends(t: Trie, u: Trie)
    requires Shape(t) && u.width == t.width && u.kids == t.kids && u.up == t.up
    requires u.marks.Keys == t.marks.Keys && u.chain.Keys == t.chain.Keys
    ensures Shape(u)
  {
    forall l | l in u.kids
      ensures KidOk(u, l, false) && KidOk(u, l, true)
    {
      assert KidOk(t, l, false) && KidOk(t, l, true);
    }
    forall l | u.Has(l)
      ensures UpOk(u, l)
    {
      assert t.Has(l) && UpOk(t, l);
    }
    forall l, m | l in u.kids && u.Has(m)
      ensures Guides(u, l, m)
    {
      assert t.Has(m) && Guides(t, l, m);
    }
  }

  // ---------------------------------------------------------------- a new key

  /** The first annotation of a sorted list whose mask is not longer than `b`. */
  function SplitAt(ms: seq<Annot>, b: nat): (j: nat)
    ensures j <= |ms| && (forall i :: 0 <= i < j ==> ms[i].len > b) && (j < |ms| ==> ms[j].len <= b)
  {
    if ms == [] || ms[0].len <= b then 0 else 1 + SplitAt(ms[1..], b)
  }

  predicate Promotable(e: Entry, b: nat)
  {
    e.mask != None && e.mask.value <= b && !e.lifted
  }

  /** The annotations made from the first `i` leaves of the chain of `key`. */
  function NewMarks(c: seq<Entry>, i: nat, b: nat, key: Bits): (ms: seq<Annot>)
    requires i <= |c|
  {
    if i == 0 then [] else
      NewMarks(c, i - 1, b, key) + if Promotable(c[i - 1], b) then [Annot(c[i - 1].mask.value, key)] else []
  }

  function LiftUpTo(c: seq<Entry>, i: nat, b: nat): (d: seq<Entry>)
    requires i <= |c|
    ensures |d| == |c|
    ensures forall k :: 0 <= k < |c| ==> d[k] == if k < i && Promotable(c[k], b) then c[k].(lifted := true) else c[k]
  {
    seq(|c|, k requires 0 <= k < |c| => if k < i && Promotable(c[k], b) then c[k].(lifted := true) else c[k])
  }

  /** rn_insert of a new key, then the promotion of general routes from below. */
  ghost function Promoted(t: Trie, v: Bits, p: Bits, x: Bits, b: nat, e: Entry): Trie
    requires p in t.kids && b < |v| && |p| < |v| && t.Has(x) && t.marks.Keys == t.kids.Keys
  {
    var u := InsertTrie(t, v, p, x, b, e);
    var n := v[..b];
    if x in t.kids then
      var j := SplitAt(t.marks[x], b);
      u.(marks := u.marks[x := t.marks[x][..j]][n := t.marks[x][j..]])
    else
      var c := t.chain[x];
      u.(marks := u.marks[n := NewMarks(c, |c|, b, x)], chain := u.chain[x := LiftUpTo(c, |c|, b)])
  }

  ghost predicate FromChain(c: seq<Entry>, i: nat, b: nat, key: Bits, a: Annot)
    requires i <= |c|
  {
    exists k :: 0 <= k < i && Promotable(c[k], b) && a == Annot(c[k].mask.value, key)
  }

  lemma {:induction false} NewMarksMembers(c: seq<Entry>, i: nat, b: nat, key: Bits)
    requires i <= |c|
    ensures forall k :: 0 <= k < i && Promotable(c[k], b) ==> Annot(c[k].mask.value, key) in NewMarks(c, i, b, key)
    ensures forall a :: a in NewMarks(c, i, b, key) ==> FromChain(c, i, b, key, a)
  {
    if i > 0 {
      NewMarksMembers(c, i - 1, b, key);
      forall a | a in NewMarks(c, i, b, key)
        ensures FromChain(c, i, b, key, a)
      {
        if a in NewMarks(c, i - 1, b, key) {
          assert FromChain(c, i - 1, b, key, a);
        } else {
          assert Promotable(c[i - 1], b) && a == Annot(c[i - 1].mask.value, key);
        }
      }
    }
  }

  lemma {:induction false} NewMarksSorted(c: seq<Entry>, i: nat, b: nat, key: Bits)
    requires i <= |c|
    requires forall k, m :: 0 <= k < m < |c| && c[k].mask != None && c[m].mask != None ==> c[k].mask.value > c[m].mask.value
    ensures Sorted(NewMarks(c, i, b, key))
  {
    if i > 0 {
      NewMarksSorted(c, i - 1, b, key);
      NewMarksMembers(c, i - 1, b, key);
      var prev := NewMarks(c, i - 1, b, key);
      assert forall a :: a in prev ==> FromChain(c, i - 1, b, key, a);
      assert forall j :: 0 <= j < |prev| ==> prev[j] in prev;
    }
  }

  lemma InsertedKeys(t: Trie, v: Bits, p: Bits, x: Bits, b: nat, e: Entry)
    requires p in t.kids && b < |v| && |p| < |v| && t.marks.Keys == t.kids.Keys
    requires t.up.Keys == t.kids.Keys + t.chain.Keys && x in t.up && x != v && x != v[..b]
    ensures var u := InsertTrie(t, v, p, x, b, e);
            var n := v[..b];
            && u.width == t.width
            && u.kids.Keys == t.kids.Keys + {n} && u.marks.Keys == u.kids.Keys && u.chain.Keys == t.chain.Keys + {v}
            && u.up == t.up[n := p][v := n][x := n] && u.up.Keys == u.kids.Keys + u.chain.Keys
            && u.chain[v] == [e]
  {
  }

  /** The facts about the new trie that the proofs below use. */
  lemma PromotedFields(t: Trie, v: Bits, p: Bits, x: Bits, b: nat, e: Entry)
    requires Shape(t) && InsertPos(t, v, p, x, b)
    ensures t.Has(x) && t.marks.Keys == t.kids.Keys
    ensures var u := Promoted(t, v, p, x, b, e);
            var n := v[..b];
            && u.width == t.width
            && u.kids.Keys == t.kids.Keys + {n} && u.marks.Keys == u.kids.Keys && u.chain.Keys == t.chain.Keys + {v}
            && u.up == t.up[n := p][v := n][x := n] && u.up.Keys == u.kids.Keys + u.chain.Keys
            && u.chain[v] == [e]
            && !t.Has(n) && n != [] && !t.Has(v) && x != [] && x in t.up && t.up[x] == p
  {
    hide Shape, InsertTrie, SplitAt, NewMarks, LiftUpTo, Agree, Below, Prefix;
    OfFields(t);
    InsertFresh(t, v, p, x, b);
    InsertedKeys(t, v, p, x, b, e);
  }

  lemma PromotedShape(t: Trie, v: Bits, p: Bits, x: Bits, b: nat, e: Entry)
    requires Shape(t) && InsertPos(t, v, p, x, b)
    ensures t.Has(x) && t.marks.Keys == t.kids.Keys && Shape(Promoted(t, v, p, x, b, e))
  {
    hide Shape;
    PromotedFields(t, v, p, x, b, e);
    InsertKeepsShape(t, v, p, x, b, e);
    var u := InsertTrie(t, v, p, x, b, e);
    OfFields(u);
    ShapeDepends(u, Promoted(t, v, p, x, b, e));
  }

  /** The new node takes over from `x` exactly the hosting of the masks not longer than `b`. */
  lemma HostMoves(t: Trie, v: Bits, p: Bits, x: Bits, b: nat, e: Entry, m: Bits, l: Bits, q: nat)
    requires Shape(t) && InsertPos(t, v, p, x, b) && l in t.chain && (m in t.kids || m == v[..b])
    requires t.Has(x) && t.marks.Keys == t.kids.Keys
    ensures var u := Promoted(t, v, p, x, b, e);
            && (m == v[..b] ==> (Hosts(u, m, l, q) <==> Prefix(x, l) && |p| < q <= b))
            && (m == x ==> (Hosts(u, m, l, q) <==> Hosts(t, m, l, q) && b < q))
            && (m != v[..b] && m != x ==> (Hosts(u, m, l, q) <==> Hosts(t, m, l, q)))
  {
    hide Shape;
    PromotedFields(t, v, p, x, b, e);
    var n := v[..b];
    if m == n {
      assert Prefix(x, l) ==> Prefix(n, l);
      if Prefix(n, l) {
        OfChain(t, l);
        assert l[|p|] == v[|p|];
        OfGuide(t, p, l);
      }
    }
  }

  /** A leaf that is not new keeps its chain up to the lifted flags, which change only at `x`. */
  lemma PromotedChain(t: Trie, v: Bits, p: Bits, x: Bits, b: nat, e: Entry, l: Bits)
    requires Shape(t) && InsertPos(t, v, p, x, b) && l in t.chain
    requires t.Has(x) && t.marks.Keys == t.kids.Keys
    ensures var u := Promoted(t, v, p, x, b, e);
            && l != v && l in u.chain && |u.chain[l]| == |t.chain[l]|
            && forall i :: 0 <= i < |t.chain[l]| ==>
                 u.chain[l][i] == if l == x && Promotable(t.chain[l][i], b) then t.chain[l][i].(lifted := true) else t.chain[l][i]
  {
    hide Shape;
    if l == x {
      OfChain(t, x);
    }
  }

  lemma PromotedEntryOk(t: Trie, v: Bits, p: Bits, x: Bits, b: nat, e: Entry, l: Bits, i: nat)
    requires Shape(t) && Annotated(t, None) && InsertPos(t, v, p, x, b)
    requires t.Has(x) && t.marks.Keys == t.kids.Keys && l in t.chain && i < |t.chain[l]|
    ensures var u := Promoted(t, v, p, x, b, e);
            && l in u.chain && |u.chain[l]| == |t.chain[l]| && l in u.up && u.chain[l][i].mask == t.chain[l][i].mask
            && EntryOk(u, l, i, Some(Route(v, e.mask)))
  {
    hide Shape, Annotated, ZeroFrom;
    PromotedFields(t, v, p, x, b, e);
    PromotedChain(t, v, p, x, b, e, l);
    OfEntry(t, l, i, None);
  }

  lemma ChainOkFrom(t: Trie, u: Trie, l: Bits, but: Option<Route>)
    requires Annotated(t, None) && l in t.chain && l in u.chain && l in u.up && |u.chain[l]| == |t.chain[l]|
    requires forall i :: 0 <= i < |u.chain[l]| ==> u.chain[l][i].mask == t.chain[l][i].mask && EntryOk(u, l, i, but)
    ensures ChainOk(u, l, but)
  {
    hide Annotated, EntryOk;
    OfChainOk(t, l, None);
    assert forall i :: 0 <= i < |u.chain[l]| ==> EntryOk(u, l, i, but);
  }

  lemma PromotedChainOk(t: Trie, v: Bits, p: Bits, x: Bits, b: nat, e: Entry, l: Bits)
    requires Shape(t) && Annotated(t, None) && InsertPos(t, v, p, x, b) && NewEntry(t, v, e)
    requires t.Has(x) && t.marks.Keys == t.kids.Keys
    requires l in Promoted(t, v, p, x, b, e).chain && l in Promoted(t, v, p, x, b, e).up
    ensures ChainOk(Promoted(t, v, p, x, b, e), l, Some(Route(v, e.mask)))
  {
    hide Shape, Annotated;
    PromotedFields(t, v, p, x, b, e);
    if l != v {
      hide InsertPos, Promoted, EntryOk;
      PromotedChain(t, v, p, x, b, e, l);
      forall i | 0 <= i < |t.chain[l]| {
        PromotedEntryOk(t, v, p, x, b, e, l, i);
      }
      ChainOkFrom(t, Promoted(t, v, p, x, b, e), l, Some(Route(v, e.mask)));
    }
  }

  /** A leaf that may be entered for key `v`. */
  ghost predicate NewEntry(t: Trie, v: Bits, e: Entry)
  {
    !e.root && !e.lifted && (e.mask != None ==> e.mask.value <= t.width && ZeroFrom(v, e.mask.value))
  }

  lemma OfChainOk(t: Trie, l: Bits, but: Option<Route>)
    requires Annotated(t, but) && l in t.chain
    ensures |t.chain[l]| > 0
    ensures forall i, j :: 0 <= i < j < |t.chain[l]| && t.chain[l][i].mask != None && t.chain[l][j].mask != None ==>
              t.chain[l][i].mask.value > t.chain[l][j].mask.value
  {
    assert l in t.up && ChainOk(t, l, but);
  }

  lemma SplitMembers(ms: seq<Annot>, b: nat, a: Annot)
    requires Sorted(ms) && a in ms
    ensures a.len > b ==> a in ms[..SplitAt(ms, b)]
    ensures a.len <= b ==> a in ms[SplitAt(ms, b)..]
  {
    var j := SplitAt(ms, b);
    var k :| 0 <= k < |ms| && ms[k] == a;
    if k < j {
      assert ms[..j][k] == a;
    } else {
      assert ms[j..][k - j] == a;
    }
  }

  lemma OfSorted(t: Trie, n: Bits, but: Option<Route>)
    requires Annotated(t, but) && n in t.marks
    ensures Sorted(t.marks[n])
  {
  }

  lemma PromotedMark(t: Trie, v: Bits, p: Bits, x: Bits, b: nat, e: Entry, l: Bits, i: nat, m: Bits)
    requires Shape(t) && Annotated(t, None) && InsertPos(t, v, p, x, b) && t.Has(x) && t.marks.Keys == t.kids.Keys
    requires l in t.chain && l != v && i < |t.chain[l]| && t.chain[l][i].mask != None && (m in t.kids || m == v[..b])
    requires Hosts(Promoted(t, v, p, x, b, e), m, l, t.chain[l][i].mask.value)
    ensures var u := Promoted(t, v, p, x, b, e);
            m in u.marks && Annot(t.chain[l][i].mask.value, l) in u.marks[m]
  {
    hide Shape, Annotated;
    var u := Promoted(t, v, p, x, b, e);
    var q := t.chain[l][i].mask.value;
    PromotedFields(t, v, p, x, b, e);
    HostMoves(t, v, p, x, b, e, m, l, q);
    if m == v[..b] && x !in t.kids {
      OfChain(t, x);
      OfChain(t, l);
      SameBits(x, l);
      OfEntry(t, l, i, None);
      NewMarksMembers(t.chain[x], |t.chain[x]|, b, x);
    } else if m == v[..b] {
      OfMarked(t, l, i, x, None);
      OfSorted(t, x, None);
      SplitMembers(t.marks[x], b, Annot(q, l));
    } else {
      OfMarked(t, l, i, m, None);
      if m == x {
        OfSorted(t, x, None);
        SplitMembers(t.marks[x], b, Annot(q, l));
      }
    }
  }

  /** Every annotated route is still annotated at its host. */
  lemma PromotedMarked(t: Trie, v: Bits, p: Bits, x: Bits, b: nat, e: Entry, l: Bits, i: nat, m: Bits)
    requires Shape(t) && Annotated(t, None) && InsertPos(t, v, p, x, b)
    requires t.Has(x) && t.marks.Keys == t.kids.Keys
    requires l in Promoted(t, v, p, x, b, e).chain && i < |Promoted(t, v, p, x, b, e).chain[l]| && m in Promoted(t, v, p, x, b, e).kids
    ensures Marked(Promoted(t, v, p, x, b, e), l, i, m, Some(Route(v, e.mask)))
  {
    hide Shape, Annotated;
    var u := Promoted(t, v, p, x, b, e);
    var n := v[..b];
    PromotedFields(t, v, p, x, b, e);
    if l != v {
      PromotedChain(t, v, p, x, b, e, l);
      var q := t.chain[l][i].mask;
      if q != None && Hosts(u, m, l, q.value) {
        HostMoves(t, v, p, x, b, e, m, l, q.value);
        PromotedMark(t, v, p, x, b, e, l, i, m);
      }
    }
  }

  lemma PromotedInChain(t: Trie, v: Bits, p: Bits, x: Bits, b: nat, e: Entry, l: Bits, mask: Option<nat>)
    requires Shape(t) && InsertPos(t, v, p, x, b) && t.Has(x) && t.marks.Keys == t.kids.Keys
    requires l != v
    ensures InChain(Promoted(t, v, p, x, b, e), l, mask) <==> InChain(t, l, mask)
  {
    hide Shape;
    var u := Promoted(t, v, p, x, b, e);
    PromotedFields(t, v, p, x, b, e);
    if l in t.chain {
      PromotedChain(t, v, p, x, b, e, l);
      hide Promoted;
      if InChain(t, l, mask) {
        var i :| 0 <= i < |t.chain[l]| && !t.chain[l][i].root && t.chain[l][i].mask == mask;
        assert !u.chain[l][i].root && u.chain[l][i].mask == mask;
      }
    }
  }

  /** Where an annotation of the new trie comes from. */
  lemma PromotedMarkFrom(t: Trie, v: Bits, p: Bits, x: Bits, b: nat, e: Entry, m: Bits, j: nat)
    requires Shape(t) && Annotated(t, None) && InsertPos(t, v, p, x, b) && t.Has(x) && t.marks.Keys == t.kids.Keys
    requires m in Promoted(t, v, p, x, b, e).marks && j < |Promoted(t, v, p, x, b, e).marks[m]|
    ensures var a := Promoted(t, v, p, x, b, e).marks[m][j];
            && InChain(t, a.key, Some(a.len))
            && (m == v[..b] ==> Prefix(x, a.key) && |p| < a.len <= b)
            && (m != v[..b] ==> Hosts(t, m, a.key, a.len) && (m == x ==> b < a.len))
  {
    hide Shape, Annotated, InChain;
    var a := Promoted(t, v, p, x, b, e).marks[m][j];
    PromotedFields(t, v, p, x, b, e);
    if m == v[..b] && x !in t.kids {
      var c := t.chain[x];
      NewMarksMembers(c, |c|, b, x);
      assert FromChain(c, |c|, b, x, a);
      var k :| 0 <= k < |c| && Promotable(c[k], b) && a == Annot(c[k].mask.value, x);
      OfEntry(t, x, k, None);
      EntryInChain(t, x, k);
    } else if m == v[..b] || m == x {
      SplitFrom(t, x, b, if m == x then j else SplitAt(t.marks[x], b) + j);
    } else {
      OfMark(t, m, j, None);
    }
  }

  lemma SplitFrom(t: Trie, x: Bits, b: nat, k: nat)
    requires Annotated(t, None) && x in t.marks && k < |t.marks[x]|
    ensures var a := t.marks[x][k];
            && InChain(t, a.key, Some(a.len)) && Hosts(t, x, a.key, a.len)
            && (k < SplitAt(t.marks[x], b) <==> b < a.len)
  {
    hide Annotated, InChain;
    OfMark(t, x, k, None);
    OfSorted(t, x, None);
  }

  /** Every annotation still stands for a route hosted there. */
  lemma PromotedMarkOk(t: Trie, v: Bits, p: Bits, x: Bits, b: nat, e: Entry, m: Bits, j: nat)
    requires Shape(t) && Annotated(t, None) && InsertPos(t, v, p, x, b) && t.Has(x) && t.marks.Keys == t.kids.Keys
    requires m in Promoted(t, v, p, x, b, e).marks && j < |Promoted(t, v, p, x, b, e).marks[m]|
    ensures MarkOk(Promoted(t, v, p, x, b, e), m, j, Some(Route(v, e.mask)))
  {
    hide Shape, Annotated, InChain, Hosts;
    var a := Promoted(t, v, p, x, b, e).marks[m][j];
    PromotedFields(t, v, p, x, b, e);
    PromotedMarkFrom(t, v, p, x, b, e, m, j);
    InChainHas(t, a.key, Some(a.len));
    HostMoves(t, v, p, x, b, e, m, a.key, a.len);
    PromotedInChain(t, v, p, x, b, e, a.key, Some(a.len));
  }

  lemma InChainHas(t: Trie, l: Bits, mask: Option<nat>)
    requires InChain(t, l, mask)
    ensures l in t.chain
  {
  }

  lemma EntryInChain(t: Trie, l: Bits, i: nat)
    requires l in t.chain && i < |t.chain[l]| && t.chain[l][i].mask != None && (t.chain[l][i].root ==> t.chain[l][i].mask == None)
    ensures InChain(t, l, t.chain[l][i].mask)
  {
  }

  lemma PromotedSorted(t: Trie, v: Bits, p: Bits, x: Bits, b: nat, e: Entry, m: Bits)
    requires Shape(t) && Annotated(t, None) && InsertPos(t, v, p, x, b) && t.Has(x) && t.marks.Keys == t.kids.Keys
    requires m in Promoted(t, v, p, x, b, e).marks
    ensures Sorted(Promoted(t, v, p, x, b, e).marks[m])
  {
    hide Shape, Annotated;
    PromotedFields(t, v, p, x, b, e);
    if x in t.kids {
      OfSorted(t, x, None);
    } else {
      OfChainOk(t, x, None);
      NewMarksSorted(t.chain[x], |t.chain[x]|, b, x);
    }
    if m in t.marks {
      OfSorted(t, m, None);
    }
  }

  lemma PromotedRoots(t: Trie, v: Bits, p: Bits, x: Bits, b: nat, e: Entry, l: Bits)
    requires Shape(t) && InsertPos(t, v, p, x, b) && t.Has(x) && t.marks.Keys == t.kids.Keys && HasRoot(t, l)
    ensures HasRoot(Promoted(t, v, p, x, b, e), l)
  {
    PromotedChain(t, v, p, x, b, e, l);
    hide Shape;
    var i :| 0 <= i < |t.chain[l]| && t.chain[l][i].root;
    assert Promoted(t, v, p, x, b, e).chain[l][i].root;
  }

  /** Inserting a new key keeps the tree and all annotations right, but for the new route itself. */
  lemma PromotedAnnotated(t: Trie, v: Bits, p: Bits, x: Bits, b: nat, e: Entry)
    requires Good(t) && InsertPos(t, v, p, x, b) && NewEntry(t, v, e)
    ensures t.Has(x) && t.marks.Keys == t.kids.Keys
    ensures Shape(Promoted(t, v, p, x, b, e)) && Annotated(Promoted(t, v, p, x, b, e), Some(Route(v, e.mask)))
  {
    hide Shape, ChainOk, Marked, MarkOk, Sorted, HasRoot, NewEntry;
    PromotedShape(t, v, p, x, b, e);
    PromotedFields(t, v, p, x, b, e);
    var u := Promoted(t, v, p, x, b, e);
    var but := Some(Route(v, e.mask));
    hide Promoted;
    PromotedRoots(t, v, p, x, b, e, Zeros(t.width));
    PromotedRoots(t, v, p, x, b, e, Ones(t.width));
    forall l | l in u.chain
      ensures ChainOk(u, l, but)
    {
      PromotedChainOk(t, v, p, x, b, e, l);
    }
    forall l, i: nat, m | l in u.chain && i < |u.chain[l]| && m in u.kids
      ensures Marked(u, l, i, m, but)
    {
      PromotedMarked(t, v, p, x, b, e, l, i, m);
    }
    forall m, j: nat | m in u.marks && j < |u.marks[m]|
      ensures MarkOk(u, m, j, but)
    {
      PromotedMarkOk(t, v, p, x, b, e, m, j);
    }
    forall m | m in u.marks
      ensures Sorted(u.marks[m])
    {
      PromotedSorted(t, v, p, x, b, e, m);
    }
  }

  // ---------------------------------------------------------------- a duplicated key

  /** Where rn_addroute links a new leaf into an rn_dupedkey chain. */
  ghost predicate DupPos(c: seq<Entry>, i: nat, mask: Option<nat>)
  {
    && i <= |c| && (mask == None ==> i == 0)
    && (forall k :: 0 <= k < i ==> c[k].mask != mask && (mask != None && c[k].mask != None ==> c[k].mask.value > mask.value))
    && (i < |c| ==> c[i].mask != None && (mask != None ==> mask.value > c[i].mask.value))
  }

  ghost function DupTrie(t: Trie, l: Bits, i: nat, e: Entry): Trie
    requires l in t.chain && i <= |t.chain[l]|
  {
    t.(chain := t.chain[l := t.chain[l][..i] + [e] + t.chain[l][i..]])
  }

  /** The index in the old chain of entry `k` of the new one. */
  function Before(i: nat, k: nat): nat
    requires k != i
  {
    if k < i then k else k - 1
  }

  lemma DupEntries(t: Trie, l: Bits, i: nat, e: Entry, k: nat)
    requires l in t.chain && i <= |t.chain[l]| && k <= |t.chain[l]|
    ensures var d := DupTrie(t, l, i, e).chain[l];
            |d| == |t.chain[l]| + 1 && d[k] == if k == i then e else t.chain[l][Before(i, k)]
  {
  }

  lemma DupEntryOk(t: Trie, l: Bits, i: nat, e: Entry, k: nat)
    requires Shape(t) && Annotated(t, None) && l in t.chain && DupPos(t.chain[l], i, e.mask) && NewEntry(t, l, e)
    requires k <= |t.chain[l]| && l in t.up
    ensures |DupTrie(t, l, i, e).chain[l]| == |t.chain[l]| + 1
    ensures EntryOk(DupTrie(t, l, i, e), l, k, Some(Route(l, e.mask)))
  {
    hide Shape, Annotated, ZeroFrom;
    DupEntries(t, l, i, e, k);
    if k != i {
      OfEntry(t, l, Before(i, k), None);
      if k > i && i < |t.chain[l]| && Before(i, k) > i {
        OfOrder(t, l, i, Before(i, k), None);
      }
    }
  }

  lemma DupOrder(t: Trie, l: Bits, i: nat, e: Entry, j: nat, k: nat)
    requires Annotated(t, None) && l in t.chain && DupPos(t.chain[l], i, e.mask)
    requires j < k <= |t.chain[l]|
    ensures var d := DupTrie(t, l, i, e).chain[l];
            |d| == |t.chain[l]| + 1 && (d[j].mask != None && d[k].mask != None ==> d[j].mask.value > d[k].mask.value)
  {
    hide Annotated;
    DupEntries(t, l, i, e, j);
    DupEntries(t, l, i, e, k);
    if j != i && k != i {
      OfOrder(t, l, Before(i, j), Before(i, k), None);
    } else if j == i && Before(i, k) > i {
      OfOrder(t, l, i, Before(i, k), None);
    }
  }

  lemma DupChainOk(t: Trie, l: Bits, i: nat, e: Entry, m: Bits)
    requires Shape(t) && Annotated(t, None) && l in t.chain && DupPos(t.chain[l], i, e.mask) && NewEntry(t, l, e)
    requires m in t.chain && m in t.up && i <= |t.chain[l]|
    ensures ChainOk(DupTrie(t, l, i, e), m, Some(Route(l, e.mask)))
  {
    hide Shape, Annotated, DupPos, NewEntry, EntryOk;
    if m == l {
      var u := DupTrie(t, l, i, e);
      forall k | 0 <= k < |u.chain[l]|
        ensures EntryOk(u, l, k, Some(Route(l, e.mask)))
      {
        DupEntryOk(t, l, i, e, k);
      }
      forall j, k | 0 <= j < k < |u.chain[l]| {
        DupOrder(t, l, i, e, j, k);
      }
    } else {
      OfChainOk(t, m, None);
      forall k | 0 <= k < |t.chain[m]|
        ensures EntryOk(DupTrie(t, l, i, e), m, k, Some(Route(l, e.mask)))
      {
        OtherEntryOk(t, l, i, e, m, k);
      }
    }
  }

  lemma OtherEntryOk(t: Trie, l: Bits, i: nat, e: Entry, m: Bits, k: nat)
    requires Annotated(t, None) && l in t.chain && i <= |t.chain[l]| && m in t.chain && m in t.up && m != l && k < |t.chain[m]|
    ensures EntryOk(DupTrie(t, l, i, e), m, k, Some(Route(l, e.mask)))
  {
    hide Annotated, ZeroFrom;
    OfEntry(t, m, k, None);
  }

  lemma DupInChain(t: Trie, l: Bits, i: nat, e: Entry, m: Bits, mask: Option<nat>)
    requires l in t.chain && i <= |t.chain[l]| && !e.root
    ensures InChain(DupTrie(t, l, i, e), m, mask) <==> InChain(t, m, mask) || (m == l && mask == e.mask)
  {
    var u := DupTrie(t, l, i, e);
    if m == l {
      if InChain(u, m, mask) {
        var k :| 0 <= k < |u.chain[l]| && !u.chain[l][k].root && u.chain[l][k].mask == mask;
        DupEntries(t, l, i, e, k);
      }
      if InChain(t, m, mask) {
        var k :| 0 <= k < |t.chain[l]| && !t.chain[l][k].root && t.chain[l][k].mask == mask;
        DupEntries(t, l, i, e, if k < i then k else k + 1);
        assert u.chain[l][if k < i then k else k + 1].mask == mask;
      }
      DupEntries(t, l, i, e, i);
    }
  }

  lemma DupMarked(t: Trie, l: Bits, i: nat, e: Entry, m: Bits, k: nat, n: Bits)
    requires Annotated(t, None) && l in t.chain && i <= |t.chain[l]|
    requires m in t.chain && k < |DupTrie(t, l, i, e).chain[m]| && n in t.kids
    ensures Marked(DupTrie(t, l, i, e), m, k, n, Some(Route(l, e.mask)))
  {
    hide Annotated;
    var u := DupTrie(t, l, i, e);
    var mask := u.chain[m][k].mask;
    if mask != None && Hosts(u, n, m, mask.value) && (m != l || k != i) {
      if m == l {
        DupEntries(t, l, i, e, k);
        OfMarked(t, l, Before(i, k), n, None);
      } else {
        OfMarked(t, m, k, n, None);
      }
    } else if m == l && k == i {
      DupEntries(t, l, i, e, k);
    }
  }

  lemma DupMarkOk(t: Trie, l: Bits, i: nat, e: Entry, n: Bits, j: nat)
    requires Annotated(t, None) && l in t.chain && i <= |t.chain[l]| && !e.root && !InChain(t, l, e.mask)
    requires n in t.marks && j < |t.marks[n]|
    ensures MarkOk(DupTrie(t, l, i, e), n, j, Some(Route(l, e.mask)))
  {
    hide Annotated, InChain;
    OfMark(t, n, j, None);
    var a := t.marks[n][j];
    DupInChain(t, l, i, e, a.key, Some(a.len));
  }

  /** The chain has no leaf with this mask yet, wherever it is looked for. */
  lemma DupNew(t: Trie, l: Bits, i: nat, e: Entry)
    requires Annotated(t, None) && l in t.chain && DupPos(t.chain[l], i, e.mask)
    ensures !InChain(t, l, e.mask)
  {
    hide Annotated;
    forall k | 0 <= k < |t.chain[l]|
      ensures t.chain[l][k].mask != e.mask
    {
      if k > i {
        OfOrder(t, l, i, k, None);
      }
    }
  }

  lemma DupRoot(t: Trie, l: Bits, i: nat, e: Entry, m: Bits)
    requires l in t.chain && i <= |t.chain[l]| && HasRoot(t, m)
    ensures HasRoot(DupTrie(t, l, i, e), m)
  {
    var k :| 0 <= k < |t.chain[m]| && t.chain[m][k].root;
    if m == l {
      var d := if k < i then k else k + 1;
      DupEntries(t, l, i, e, d);
      assert DupTrie(t, l, i, e).chain[l][d].root;
    } else {
      assert DupTrie(t, l, i, e).chain[m][k].root;
    }
  }

  lemma DupAnnotated(t: Trie, l: Bits, i: nat, e: Entry)
    requires Good(t) && l in t.chain && DupPos(t.chain[l], i, e.mask) && NewEntry(t, l, e)
    ensures Shape(DupTrie(t, l, i, e)) && Annotated(DupTrie(t, l, i, e), Some(Route(l, e.mask)))
  {
    hide Shape, ChainOk, Marked, MarkOk, Sorted, HasRoot;
    var u := DupTrie(t, l, i, e);
    var but := Some(Route(l, e.mask));
    ShapeDepends(t, u);
    DupNew(t, l, i, e);
    DupRoot(t, l, i, e, Zeros(t.width));
    DupRoot(t, l, i, e, Ones(t.width));
    forall m | m in u.chain
      ensures ChainOk(u, m, but)
    {
      DupChainOk(t, l, i, e, m);
    }
    forall m, k: nat, n | m in u.chain && k < |u.chain[m]| && n in u.kids
      ensures Marked(u, m, k, n, but)
    {
      DupMarked(t, l, i, e, m, k, n);
    }
    forall n, j: nat | n in u.marks && j < |u.marks[n]|
      ensures MarkOk(u, n, j, but)
    {
      DupMarkOk(t, l, i, e, n, j);
    }
  }

  // ---------------------------------------------------------------- lifting the new route

  /** A node above a leaf is not deeper than the leaf's parent. */
  lemma Deepest(t: Trie, l: Bits, n: Bits)
    requires Shape(t) && l in t.chain && n in t.kids && Prefix(n, l)
    ensures l in t.up && |n| <= |t.up[l]|
  {
    OfKid(t, n, false);
    OfChain(t, l);
    OfUp(t, l);
    hide Shape;
    if |n| > |t.up[l]| {
      OfGuide(t, t.up[l], n);
    }
  }

  /** A route has one host. */
  lemma HostUnique(t: Trie, n: Bits, m: Bits, l: Bits, p: nat)
    requires Shape(t) && Hosts(t, n, l, p) && Hosts(t, m, l, p) && |n| <= |m|
    ensures n == m
  {
    hide Shape;
    if |n| == |m| {
      SameBits(n, m);
    } else {
      OfUp(t, m);
      var z := t.up[m];
      assert Prefix(z, n);
      OfGuide(t, z, n);
    }
  }

  /** The step of rn_addroute's climb. */
  lemma HostStep(t: Trie, n: Bits, l: Bits, p: nat)
    requires Shape(t) && n in t.kids && Prefix(n, l) && p <= |n|
    ensures n in t.up && t.up[n] in t.kids && |t.up[n]| <= |n| && Prefix(t.up[n], l)
    ensures n == [] || |t.up[n]| < p ==> Hosts(t, n, l, p)
    ensures n != [] ==> |t.up[n]| < |n|
  {
    hide Shape;
    OfUp(t, n);
  }

  lemma {:induction false} HostExists(t: Trie, n: Bits, l: Bits, p: nat) returns (y: Bits)
    requires Shape(t) && n in t.kids && Prefix(n, l) && p <= |n|
    ensures Hosts(t, y, l, p)
    decreases |n|
  {
    hide Shape;
    HostStep(t, n, l, p);
    if n == [] || |t.up[n]| < p {
      y := n;
    } else {
      y := HostExists(t, t.up[n], l, p);
    }
  }

  /** Where a new annotation goes in a sorted list. */
  ghost predicate MarkPos(ms: seq<Annot>, j: nat, len: nat)
  {
    && j <= |ms| && (forall i :: 0 <= i < j ==> ms[i].len > len) && (j < |ms| ==> ms[j].len < len)
  }

  function InsertMark(ms: seq<Annot>, j: nat, a: Annot): seq<Annot>
    requires j <= |ms|
  {
    ms[..j] + [a] + ms[j..]
  }

  lemma InsertMarkSorted(ms: seq<Annot>, j: nat, a: Annot)
    requires Sorted(ms) && MarkPos(ms, j, a.len)
    ensures Sorted(InsertMark(ms, j, a)) && a in InsertMark(ms, j, a)
    ensures forall b :: b in InsertMark(ms, j, a) <==> b in ms || b == a
  {
    var d := InsertMark(ms, j, a);
    assert d[j] == a;
    forall b | b in ms ensures b in d {
      var k :| 0 <= k < |ms| && ms[k] == b;
      assert d[if k < j then k else k + 1] == b;
    }
  }

  /** Two routes with the same mask length that a node hosts have the same key: the "Non-unique
      normal route" branch of rn_addroute is dead. */
  lemma SameHostSameKey(t: Trie, n: Bits, k: Bits, l: Bits, p: nat)
    requires Hosts(t, n, k, p) && Hosts(t, n, l, p) && |k| == |l| && ZeroFrom(k, p) && ZeroFrom(l, p)
    ensures k == l
  {
    forall i | 0 <= i < |k|
      ensures k[i] == l[i]
    {
    }
  }

  ghost predicate LiftPos(t: Trie, l: Bits, i: nat, p: nat, y: Bits, j: nat)
  {
    && l in t.chain && i < |t.chain[l]| && t.chain[l][i].mask == Some(p) && InChain(t, l, Some(p))
    && Hosts(t, y, l, p) && y in t.marks && MarkPos(t.marks[y], j, p)
  }

  /** The new route is annotated at its host, and its leaf remembers that. */
  ghost function LiftTrie(t: Trie, l: Bits, i: nat, p: nat, y: Bits, j: nat): Trie
    requires LiftPos(t, l, i, p, y, j)
  {
    t.(marks := t.marks[y := InsertMark(t.marks[y], j, Annot(p, l))],
       chain := t.chain[l := t.chain[l][i := t.chain[l][i].(lifted := true)]])
  }

  /** Every annotation at the host has another mask length, so the search for the place ends
      between a longer and a shorter mask. */
  lemma NoSameMark(t: Trie, l: Bits, p: nat, y: Bits, k: nat)
    requires Shape(t) && Annotated(t, Some(Route(l, Some(p)))) && l in t.chain && ZeroFrom(l, p)
    requires Hosts(t, y, l, p) && y in t.marks && k < |t.marks[y]|
    ensures t.marks[y][k].len != p
  {
    hide Shape, Annotated;
    var a := t.marks[y][k];
    OfMark(t, y, k, Some(Route(l, Some(p))));
    MarkKey(t, a.key, a.len, Some(Route(l, Some(p))));
    OfChain(t, l);
    OfChain(t, a.key);
    if a.len == p {
      SameHostSameKey(t, y, a.key, l, p);
    }
  }

  lemma MarkKey(t: Trie, k: Bits, p: nat, but: Option<Route>)
    requires Annotated(t, but) && InChain(t, k, Some(p))
    ensures k in t.chain && ZeroFrom(k, p) && p <= t.width
  {
    hide Annotated;
    var i :| 0 <= i < |t.chain[k]| && !t.chain[k][i].root && t.chain[k][i].mask == Some(p);
    OfEntry(t, k, i, but);
  }

  lemma LiftEntryOk(t: Trie, l: Bits, i: nat, p: nat, y: Bits, j: nat, m: Bits, k: nat)
    requires Shape(t) && Annotated(t, Some(Route(l, Some(p)))) && LiftPos(t, l, i, p, y, j)
    requires m in t.chain && m in t.up && k < |t.chain[m]|
    ensures EntryOk(LiftTrie(t, l, i, p, y, j), m, k, None)
  {
    hide Shape, Annotated, ZeroFrom;
    OfEntry(t, m, k, Some(Route(l, Some(p))));
    if m == l && k == i {
      Deepest(t, l, y);
    } else if m == l {
      if k < i {
        OfOrder(t, l, k, i, Some(Route(l, Some(p))));
      } else {
        OfOrder(t, l, i, k, Some(Route(l, Some(p))));
      }
    }
  }

  lemma LiftChainOk(t: Trie, l: Bits, i: nat, p: nat, y: Bits, j: nat, m: Bits)
    requires Shape(t) && Annotated(t, Some(Route(l, Some(p)))) && LiftPos(t, l, i, p, y, j)
    requires m in t.chain && m in t.up
    ensures ChainOk(LiftTrie(t, l, i, p, y, j), m, None)
  {
    hide Shape, Annotated, EntryOk;
    OfChainOk(t, m, Some(Route(l, Some(p))));
    forall k | 0 <= k < |t.chain[m]|
      ensures EntryOk(LiftTrie(t, l, i, p, y, j), m, k, None)
    {
      LiftEntryOk(t, l, i, p, y, j, m, k);
    }
  }

  lemma LiftMarked(t: Trie, l: Bits, i: nat, p: nat, y: Bits, j: nat, m: Bits, k: nat, n: Bits)
    requires Shape(t) && Annotated(t, Some(Route(l, Some(p)))) && LiftPos(t, l, i, p, y, j)
    requires m in t.chain && k < |t.chain[m]| && n in t.kids
    ensures Marked(LiftTrie(t, l, i, p, y, j), m, k, n, None)
  {
    hide Shape, Annotated, Sorted;
    var u := LiftTrie(t, l, i, p, y, j);
    var mask := t.chain[m][k].mask;
    OfSorted(t, y, Some(Route(l, Some(p))));
    InsertMarkSorted(t.marks[y], j, Annot(p, l));
    if mask != None && Hosts(u, n, m, mask.value) {
      assert Hosts(t, n, m, mask.value);
      if m == l && mask.value == p {
        if |n| <= |y| {
          HostUnique(t, n, y, l, p);
        } else {
          HostUnique(t, y, n, l, p);
        }
      } else {
        OfMarked(t, m, k, n, Some(Route(l, Some(p))));
      }
    }
  }

  lemma LiftMarkOk(t: Trie, l: Bits, i: nat, p: nat, y: Bits, j: nat, n: Bits, k: nat)
    requires Shape(t) && Annotated(t, Some(Route(l, Some(p)))) && LiftPos(t, l, i, p, y, j)
    requires n in t.marks && k < |LiftTrie(t, l, i, p, y, j).marks[n]|
    ensures MarkOk(LiftTrie(t, l, i, p, y, j), n, k, None)
  {
    hide Shape, Annotated, InChain, Sorted;
    var u := LiftTrie(t, l, i, p, y, j);
    if n == y && k == j {
      LiftInChain(t, l, i, p, y, j, l, Some(p));
    } else {
      var o := if n == y then Before(j, k) else k;
      var a := t.marks[n][o];
      assert u.marks[n][k] == a;
      OfMark(t, n, o, Some(Route(l, Some(p))));
      LiftInChain(t, l, i, p, y, j, a.key, Some(a.len));
    }
  }

  lemma LiftInChain(t: Trie, l: Bits, i: nat, p: nat, y: Bits, j: nat, m: Bits, mask: Option<nat>)
    requires LiftPos(t, l, i, p, y, j)
    ensures InChain(LiftTrie(t, l, i, p, y, j), m, mask) <==> InChain(t, m, mask)
  {
    var u := LiftTrie(t, l, i, p, y, j);
    if m in t.chain {
      assert forall k :: 0 <= k < |t.chain[m]| ==> u.chain[m][k].mask == t.chain[m][k].mask && u.chain[m][k].root == t.chain[m][k].root;
    }
  }

  lemma LiftRoot(t: Trie, l: Bits, i: nat, p: nat, y: Bits, j: nat, m: Bits)
    requires LiftPos(t, l, i, p, y, j) && HasRoot(t, m)
    ensures HasRoot(LiftTrie(t, l, i, p, y, j), m)
  {
    var k :| 0 <= k < |t.chain[m]| && t.chain[m][k].root;
    assert LiftTrie(t, l, i, p, y, j).chain[m][k].root;
  }

  lemma LiftGood(t: Trie, l: Bits, i: nat, p: nat, y: Bits, j: nat)
    requires Shape(t) && Annotated(t, Some(Route(l, Some(p)))) && LiftPos(t, l, i, p, y, j)
    ensures Good(LiftTrie(t, l, i, p, y, j))
  {
    hide Shape, ChainOk, Marked, MarkOk, Sorted, HasRoot;
    var u := LiftTrie(t, l, i, p, y, j);
    ShapeDepends(t, u);
    InsertMarkSorted(t.marks[y], j, Annot(p, l));
    LiftRoot(t, l, i, p, y, j, Zeros(t.width));
    LiftRoot(t, l, i, p, y, j, Ones(t.width));
    forall m | m in u.chain
      ensures ChainOk(u, m, None)
    {
      LiftChainOk(t, l, i, p, y, j, m);
    }
    forall m, k: nat, n | m in u.chain && k < |u.chain[m]| && n in u.kids
      ensures Marked(u, m, k, n, None)
    {
      LiftMarked(t, l, i, p, y, j, m, k, n);
    }
    forall n, k: nat | n in u.marks && k < |u.marks[n]|
      ensures MarkOk(u, n, k, None)
    {
      LiftMarkOk(t, l, i, p, y, j, n, k);
    }
  }

  /** A route without mask, or whose mask reaches beyond its parent, has no host. */
  lemma NoLiftGood(t: Trie, l: Bits, mask: Option<nat>)
    requires Shape(t) && Annotated(t, Some(Route(l, mask))) && l in t.chain && l in t.up
    requires mask == None || |t.up[l]| < mask.value
    ensures Good(t)
  {
    hide Shape, ZeroFrom;
    var but := Some(Route(l, mask));
    forall m | m in t.chain
      ensures ChainOk(t, m, None)
    {
      assert ChainOk(t, m, but);
      assert forall i :: 0 <= i < |t.chain[m]| && EntryOk(t, m, i, but) ==> EntryOk(t, m, i, None);
    }
    forall m, k: nat, n | m in t.chain && k < |t.chain[m]| && n in t.kids
      ensures Marked(t, m, k, n, None)
    {
      assert Marked(t, m, k, n, but);
      if m == l && mask != None && Hosts(t, n, l, mask.value) {
        Deepest(t, l, n);
      }
    }
    forall n, k: nat | n in t.marks && k < |t.marks[n]|
      ensures MarkOk(t, n, k, None)
    {
      assert MarkOk(t, n, k, but);
    }
  }
}
