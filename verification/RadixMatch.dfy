/** Longest-prefix match, and why each way out of rn_match delivers it. */
module RadixMatch {
  import opened Basics
  import opened RadixTrie
  import opened RadixMarks

  // ---------------------------------------------------------------- the specification

  ghost predicate Covers(r: Route, v: Bits)
  {
    |r.key| == |v| && if r.mask == None then r.key == v else Agree(r.key, v, r.mask.value)
  }

  /** A host route is more specific than any mask. */
  function Rank(r: Route, width: nat): int
  {
    if r.mask == None then width + 1 else r.mask.value
  }

  ghost predicate InTable(t: Trie, r: Route) { InChain(t, r.key, r.mask) }

  /** `r` covers `v`, and no route of the table that covers `v` is more specific; or none does. */
  ghost predicate Longest(t: Trie, v: Bits, r: Option<Route>)
  {
    match r
    case None => forall s :: InTable(t, s) ==> !Covers(s, v)
    case Some(best) =>
      && InTable(t, best) && Covers(best, v)
      && forall s :: InTable(t, s) && Covers(s, v) ==> Rank(s, t.width) <= Rank(best, t.width)
  }

  /** There is only one answer. */
  lemma LongestIsUnique(t: Trie, v: Bits, r: Option<Route>, s: Option<Route>)
    requires Good(t) && |v| == t.width && Longest(t, v, r) && Longest(t, v, s)
    ensures r == s
  {
    hide Shape, Annotated;
    if r != None && s != None {
      var a, b := r.value, s.value;
      assert Rank(a, t.width) == Rank(b, t.width);
      InTableMask(t, a);
      InTableMask(t, b);
      if a.mask != None {
        SameKey(a.key, b.key, a.mask.value);
      }
    }
  }

  lemma InTableMask(t: Trie, r: Route)
    requires Annotated(t, None) && InTable(t, r)
    ensures r.key in t.chain
    ensures r.mask != None ==> r.mask.value <= t.width && ZeroFrom(r.key, r.mask.value)
  {
    hide Annotated;
    if r.mask != None {
      MarkKey(t, r.key, r.mask.value, None);
    }
  }

  lemma SameKey(k: Bits, l: Bits, p: nat)
    requires |k| == |l| && Agree(k, l, p) && ZeroFrom(k, p) && ZeroFrom(l, p)
    ensures k == l
  {
    forall i | 0 <= i < |k|
      ensures k[i] == l[i]
    {
    }
  }

  // ---------------------------------------------------------------- covering routes

  /** A route that covers `v` agrees with the leaf that rn_search found as far as its mask goes. */
  lemma CoverAgrees(t: Trie, v: Bits, x: Bits, s: Route)
    requires Good(t) && |v| == t.width && x in t.chain && Tracks(t, v, x) && InTable(t, s) && Covers(s, v)
    ensures s.key in t.chain && |s.key| == |x| == |v|
    ensures s.mask != None ==> s.mask.value <= |v| && ZeroFrom(s.key, s.mask.value) && Agree(x, v, s.mask.value) && Agree(s.key, x, s.mask.value)
    ensures s.mask == None ==> x == v == s.key
  {
    hide Shape, Annotated, ZeroFrom;
    InTableMask(t, s);
    OfChain(t, x);
    if s.mask != None {
      assert Agree(x, v, s.mask.value);
    } else {
      assert Agree(s.key, v, |v|);
      SearchFinds(t, v, x);
    }
  }

  /** If it is more specific than a route of the leaf itself, it is in the leaf's own chain. */
  lemma LongerIsSameKey(t: Trie, v: Bits, x: Bits, s: Route, p: nat)
    requires Good(t) && |v| == t.width && x in t.chain && Tracks(t, v, x) && InTable(t, s) && Covers(s, v)
    requires ZeroFrom(x, p) && s.mask != None && p <= s.mask.value
    ensures s.key == x
  {
    hide Shape, Annotated;
    CoverAgrees(t, v, x, s);
    SameKey(s.key, x, s.mask.value);
  }

  /** Two leaves that agree on `q` bits part at or below their parents' bits. */
  lemma ParentReaches(t: Trie, k: Bits, x: Bits, q: nat)
    requires Shape(t) && k in t.chain && x in t.chain && k != x && Agree(k, x, q)
    ensures k in t.up && t.up[k] in t.kids && q <= |t.up[k]| && Prefix(t.up[k], k)
  {
    hide Shape;
    OfChain(t, k);
    OfChain(t, x);
    OfUp(t, k);
    var y := t.up[k];
    if |y| < q {
      OfGuide(t, y, x);
      SameBits(k, x);
    }
  }

  /** A covering route of another leaf is annotated at a node above the leaf that was found. */
  lemma CoverHost(t: Trie, v: Bits, x: Bits, s: Route) returns (y: Bits)
    requires Good(t) && |v| == t.width && x in t.chain && Tracks(t, v, x) && InTable(t, s) && Covers(s, v)
    requires s.key != x
    ensures s.mask != None && Hosts(t, y, s.key, s.mask.value) && Prefix(y, x)
    ensures y in t.marks && Annot(s.mask.value, s.key) in t.marks[y]
  {
    hide Shape, Annotated, ZeroFrom;
    CoverAgrees(t, v, x, s);
    var q := s.mask.value;
    ParentReaches(t, s.key, x, q);
    y := HostExists(t, t.up[s.key], s.key, q);
    var i :| 0 <= i < |t.chain[s.key]| && !t.chain[s.key][i].root && t.chain[s.key][i].mask == s.mask;
    OfMarked(t, s.key, i, y, None);
    HostAbove(t, y, s.key, x, q);
  }

  lemma HostAbove(t: Trie, y: Bits, k: Bits, x: Bits, q: nat)
    requires Shape(t) && Hosts(t, y, k, q) && k in t.chain && x in t.chain && Agree(k, x, q)
    ensures Prefix(y, x)
  {
    hide Shape;
    if y != [] {
      OfUp(t, y);
      OfChain(t, x);
      OfGuide(t, t.up[y], x);
    }
  }

  // ---------------------------------------------------------------- the ways out of rn_match

  /** `x` is the leaf rn_search finds for `v`. */
  ghost predicate Found(t: Trie, v: Bits, x: Bits)
  {
    Good(t) && |v| == t.width && x in t.chain && Tracks(t, v, x)
  }

  lemma EntryInTable(t: Trie, x: Bits, i: nat)
    requires Annotated(t, None) && x in t.chain && i < |t.chain[x]| && !t.chain[x][i].root
    ensures InTable(t, Route(x, t.chain[x][i].mask))
    ensures t.chain[x][i].mask != None ==> t.chain[x][i].mask.value <= t.width && ZeroFrom(x, t.chain[x][i].mask.value)
  {
    hide Annotated;
    OfEntry(t, x, i, None);
  }

  /** The position of a route in its chain. */
  lemma EntryOf(t: Trie, s: Route) returns (i: nat)
    requires InTable(t, s)
    ensures s.key in t.chain && i < |t.chain[s.key]| && !t.chain[s.key][i].root && t.chain[s.key][i].mask == s.mask
  {
    i :| 0 <= i < |t.chain[s.key]| && !t.chain[s.key][i].root && t.chain[s.key][i].mask == s.mask;
  }

  /** The head of the chain that is not a sentinel matched on all bytes of its mask. */
  lemma ExactHead(t: Trie, v: Bits, x: Bits, n: nat)
    requires Found(t, v, x) && |t.chain[x]| > 0 && !t.chain[x][0].root
    requires Agree(x, v, n) && n <= t.width
    requires if t.chain[x][0].mask == None then n == t.width else t.chain[x][0].mask.value <= n
    ensures Longest(t, v, Some(Route(x, t.chain[x][0].mask)))
  {
    hide Shape, Annotated, ZeroFrom;
    OfChain(t, x);
    EntryInTable(t, x, 0);
    var best := Route(x, t.chain[x][0].mask);
    if best.mask == None {
      SameBits(x, v);
    }
    forall s | InTable(t, s) && Covers(s, v)
      ensures Rank(s, t.width) <= Rank(best, t.width)
    {
      HeadIsBest(t, v, x, s);
    }
  }

  lemma HeadIsBest(t: Trie, v: Bits, x: Bits, s: Route)
    requires Found(t, v, x) && |t.chain[x]| > 0 && !t.chain[x][0].root && InTable(t, s) && Covers(s, v)
    ensures Rank(s, t.width) <= Rank(Route(x, t.chain[x][0].mask), t.width)
  {
    hide Shape, Annotated, ZeroFrom;
    EntryInTable(t, x, 0);
    CoverAgrees(t, v, x, s);
    var head := t.chain[x][0].mask;
    if head != None && (s.mask == None || head.value < s.mask.value) {
      if s.mask != None {
        LongerIsSameKey(t, v, x, s, head.value);
      }
      var i := EntryOf(t, s);
      if i > 0 {
        OfOrder(t, x, 0, i, None);
      }
    }
  }

  /** The leaf's own chain: the first mask that ends before the first differing bit. */
  lemma ChainHit(t: Trie, v: Bits, x: Bits, b: nat, i: nat)
    requires Found(t, v, x) && b < |v| && b < |x| && Agree(x, v, b) && x[b] != v[b]
    requires i < |t.chain[x]| && t.chain[x][i].mask != None && t.chain[x][i].mask.value <= b
    requires forall k :: 0 <= k < i && t.chain[x][k].mask != None ==> b < t.chain[x][k].mask.value
    ensures !t.chain[x][i].root && Longest(t, v, Some(Route(x, t.chain[x][i].mask)))
  {
    hide Shape, Annotated, ZeroFrom;
    OfChain(t, x);
    OfEntry(t, x, i, None);
    EntryInTable(t, x, i);
    var best := Route(x, t.chain[x][i].mask);
    forall s | InTable(t, s) && Covers(s, v)
      ensures Rank(s, t.width) <= Rank(best, t.width)
    {
      CoverAgrees(t, v, x, s);
      if best.mask.value < s.mask.value {
        LongerIsSameKey(t, v, x, s, best.mask.value);
        var k := EntryOf(t, s);
        if i < k {
          OfOrder(t, x, i, k, None);
        }
      }
    }
  }

  /** None of the leaf's own routes covers `v`. */
  ghost predicate ChainMisses(t: Trie, x: Bits, b: nat)
    requires x in t.chain
  {
    forall k :: 0 <= k < |t.chain[x]| && t.chain[x][k].mask != None ==> b < t.chain[x][k].mask.value
  }

  /** No annotation of a node above leaf `x` and deeper than `d` ends before bit `b`. */
  ghost predicate ClimbMisses(t: Trie, x: Bits, b: nat, d: int)
  {
    forall n, j: nat :: n in t.marks && Prefix(n, x) && d < |n| && j < |t.marks[n]| ==> b < t.marks[n][j].len
  }

  /** After a miss in the chain only routes of other leaves can cover `v`, each annotated above. */
  lemma MissedCover(t: Trie, v: Bits, x: Bits, b: nat, s: Route) returns (y: Bits)
    requires Found(t, v, x) && b < |v| && b < |x| && Agree(x, v, b) && x[b] != v[b] && ChainMisses(t, x, b)
    requires InTable(t, s) && Covers(s, v)
    ensures s.mask != None && s.mask.value <= b && Hosts(t, y, s.key, s.mask.value) && Prefix(y, x)
    ensures y in t.marks && Annot(s.mask.value, s.key) in t.marks[y]
  {
    hide Shape, Annotated, ZeroFrom;
    CoverAgrees(t, v, x, s);
    if s.key == x {
      var k := EntryOf(t, s);
      assert false;
    }
    y := CoverHost(t, v, x, s);
  }

  /** The climb ended at the top without a hit: nothing covers `v`. */
  lemma NoHit(t: Trie, v: Bits, x: Bits, b: nat)
    requires Found(t, v, x) && b < |v| && b < |x| && Agree(x, v, b) && x[b] != v[b] && ChainMisses(t, x, b)
    requires ClimbMisses(t, x, b, -1)
    ensures Longest(t, v, None)
  {
    hide Shape, Annotated;
    forall s | InTable(t, s)
      ensures !Covers(s, v)
    {
      if Covers(s, v) {
        var y := MissedCover(t, v, x, b, s);
        assert false;
      }
    }
  }

  /** Annotation `j` of node `n` is the first on the climb that ends before bit `b`. */
  lemma MarkHit(t: Trie, v: Bits, x: Bits, b: nat, n: Bits, j: nat)
    requires Found(t, v, x) && b < |v| && b < |x| && Agree(x, v, b) && x[b] != v[b] && ChainMisses(t, x, b)
    requires n in t.marks && Prefix(n, x) && ClimbMisses(t, x, b, |n|) && j < |t.marks[n]| && t.marks[n][j].len <= b
    requires forall k :: 0 <= k < j ==> b < t.marks[n][k].len
    ensures var a := t.marks[n][j]; Longest(t, v, Some(Route(a.key, Some(a.len))))
  {
    hide Shape, Annotated, ZeroFrom;
    var a := t.marks[n][j];
    OfMark(t, n, j, None);
    InTableMask(t, Route(a.key, Some(a.len)));
    OfChain(t, a.key);
    OfChain(t, x);
    assert Agree(a.key, v, a.len);
    forall s | InTable(t, s) && Covers(s, v)
      ensures Rank(s, t.width) <= a.len
    {
      var y := MissedCover(t, v, x, b, s);
      FirstIsBest(t, x, b, n, j, s.mask.value, s.key, y);
    }
  }

  lemma FirstIsBest(t: Trie, x: Bits, b: nat, n: Bits, j: nat, q: nat, k: Bits, y: Bits)
    requires Good(t) && x in t.chain && n in t.marks && Prefix(n, x) && ClimbMisses(t, x, b, |n|)
    requires j < |t.marks[n]| && Hosts(t, n, t.marks[n][j].key, t.marks[n][j].len)
    requires forall i :: 0 <= i < j ==> b < t.marks[n][i].len
    requires q <= b && Hosts(t, y, k, q) && Prefix(y, x) && y in t.marks && Annot(q, k) in t.marks[y]
    ensures q <= t.marks[n][j].len
  {
    hide Shape, Annotated;
    var i :| 0 <= i < |t.marks[y]| && t.marks[y][i] == Annot(q, k);
    if |y| == |n| {
      SameBits(y, n);
      OfSorted(t, n, None);
    } else if |y| < |n| {
      OfUp(t, n);
      var z := t.up[n];
      if |z| < |y| {
        OfGuide(t, z, y);
      }
    }
  }

  /** The leaf reached is the key itself and a sentinel heads its chain: the next entry is
      returned. That is right for the all-zeros key, and for the all-ones key if it was entered. */
  lemma ExactRoot(t: Trie, v: Bits, x: Bits)
    requires Found(t, v, x) && x == v && |t.chain[x]| > 0 && t.chain[x][0].root
    ensures var r := if |t.chain[x]| > 1 then Some(Route(x, t.chain[x][1].mask)) else None;
            && (v != Ones(t.width) || |t.chain[x]| > 1 ==> Longest(t, v, r))
            && (InTable(t, Route(v, Some(t.width))) && v == Ones(t.width) ==> |t.chain[x]| > 1)
            && (|t.chain[x]| > 1 && v == Ones(t.width) ==> r == Some(Route(v, Some(t.width))))
  {
    hide Shape, Annotated;
    OfEntry(t, x, 0, None);
    if |t.chain[x]| > 1 {
      OfEntry(t, x, 1, None);
      EntryInTable(t, x, 1);
      if v == Ones(t.width) {
        OnesMask(t.width, t.chain[x][1].mask.value);
      }
    }
    forall s | InTable(t, s) && Covers(s, v)
      ensures v != Ones(t.width) ==> |t.chain[x]| > 1
      ensures |t.chain[x]| > 1 ==> Rank(s, t.width) <= Rank(Route(x, t.chain[x][1].mask), t.width)
    {
      RootCover(t, v, s);
    }
    if InTable(t, Route(v, Some(t.width))) {
      var i := EntryOf(t, Route(v, Some(t.width)));
    }
  }

  lemma OnesMask(w: nat, p: nat)
    requires p <= w
    ensures ZeroFrom(Ones(w), p) ==> p == w
  {
    if p < w {
      assert Ones(w)[p];
    }
  }

  lemma RootCover(t: Trie, v: Bits, s: Route)
    requires Found(t, v, v) && |t.chain[v]| > 0 && t.chain[v][0].root && InTable(t, s) && Covers(s, v)
    ensures v != Ones(t.width) ==> |t.chain[v]| > 1
    ensures |t.chain[v]| > 1 ==> Rank(s, t.width) <= Rank(Route(v, t.chain[v][1].mask), t.width)
  {
    hide Shape, Annotated;
    CoverAgrees(t, v, v, s);
    OfEntry(t, v, 0, None);
    var i := EntryOf(t, s);
    OfEntry(t, s.key, i, None);
    if v == Zeros(t.width) && s.mask != None {
      SameKey(s.key, v, s.mask.value);
    }
    if s.key == v {
      if i > 1 {
        OfOrder(t, v, 1, i, None);
      }
    } else if |t.chain[v]| > 1 {
      OfEntry(t, v, 1, None);
      OnesMask(t.width, t.chain[v][1].mask.value);
    }
  }
}
