/** The quicksort of ipfw/qsort.c (Bentley and McIlroy), in place on an array. An array element stands
  for the `es` bytes of one. */
module Qsort {

  type Cmp<!T> = (T, T) -> int

  /** The comparison is a total preorder. */
  ghost predicate Preorder<T(!new)>(cmp: Cmp<T>)
  {
    && (forall x, y :: cmp(x, y) < 0 <==> cmp(y, x) > 0)
    && (forall x, y, z :: cmp(x, y) <= 0 && cmp(y, z) <= 0 ==> cmp(x, z) <= 0)
  }

  // ---------------------------------------------------------------- segments

  ghost predicate Asc<T>(cmp: Cmp<T>, s: seq<T>, lo: int, hi: int)
    requires 0 <= lo && hi <= |s|
  {
    forall i, j :: lo <= i < j < hi ==> cmp(s[i], s[j]) <= 0
  }

  /** Everything from `lo` to `mid` is at most everything from `mid` to `hi`. */
  ghost predicate Below<T>(cmp: Cmp<T>, s: seq<T>, lo: int, mid: int, hi: int)
    requires 0 <= lo && hi <= |s|
  {
    forall i, j :: lo <= i < mid && mid <= j < hi ==> 0 <= j && i < |s| && cmp(s[i], s[j]) <= 0
  }

  ghost predicate SameOutside<T>(s: seq<T>, t: seq<T>, lo: int, hi: int)
  {
    |s| == |t| && forall i :: 0 <= i < |s| && !(lo <= i < hi) ==> s[i] == t[i]
  }

  /** `t` is `s` with the elements from `lo` to `hi` in some order. */
  ghost predicate Perm<T>(s: seq<T>, t: seq<T>, lo: int, hi: int)
    requires 0 <= lo <= hi
  {
    hi <= |s| && SameOutside(s, t, lo, hi) && multiset(s[lo..hi]) == multiset(t[lo..hi])
  }

  lemma PermTrans<T>(s: seq<T>, t: seq<T>, u: seq<T>, lo: int, hi: int)
    requires 0 <= lo <= hi && Perm(s, t, lo, hi) && Perm(t, u, lo, hi)
    ensures Perm(s, u, lo, hi)
  {
  }

  lemma PermWiden<T>(s: seq<T>, t: seq<T>, lo: int, hi: int, lo': int, hi': int)
    requires 0 <= lo' <= lo <= hi <= hi' <= |s| && Perm(s, t, lo, hi)
    ensures Perm(s, t, lo', hi')
  {
    Three(s, lo', lo, hi, hi');
    Three(t, lo', lo, hi, hi');
    assert s[lo'..lo] == t[lo'..lo] && s[hi..hi'] == t[hi..hi'];
  }

  lemma Three<T>(s: seq<T>, a: int, b: int, c: int, d: int)
    requires 0 <= a <= b <= c <= d <= |s|
    ensures multiset(s[a..d]) == multiset(s[a..b]) + multiset(s[b..c]) + multiset(s[c..d])
  {
    assert s[a..d] == s[a..b] + s[b..c] + s[c..d];
  }

  /** Where an element of a permuted segment comes from. */
  lemma PermSource<T>(s: seq<T>, t: seq<T>, lo: int, hi: int, i: int) returns (k: int)
    requires 0 <= lo <= i < hi && Perm(s, t, lo, hi)
    ensures lo <= k < hi <= |s| == |t| && s[k] == t[i]
  {
    assert t[lo..hi][i - lo] in multiset(t[lo..hi]);
    assert t[i] in s[lo..hi];
    var j :| 0 <= j < hi - lo && s[lo..hi][j] == t[i];
    k := lo + j;
  }

  ghost function Swapped<T>(s: seq<T>, i: int, j: int): seq<T>
    requires 0 <= i < |s| && 0 <= j < |s|
  {
    s[i := s[j]][j := s[i]]
  }

  lemma PermSwap<T>(s: seq<T>, i: int, j: int, lo: int, hi: int)
    requires 0 <= lo <= i < hi <= |s| && lo <= j < hi
    ensures Perm(s, Swapped(s, i, j), lo, hi)
  {
    assert Swapped(s, i, j)[lo..hi] == s[lo..hi][i - lo := s[j]][j - lo := s[i]];
  }

  lemma PermSelf<T>(s: seq<T>, lo: int, hi: int)
    requires 0 <= lo <= hi <= |s|
    ensures Perm(s, s, lo, hi)
  {
  }

  // ---------------------------------------------------------------- med3

  /** med3, on the indices of the elements. */
  function Med3<T>(cmp: Cmp<T>, s: seq<T>, a: int, b: int, c: int): (r: int)
    requires 0 <= a < |s| && 0 <= b < |s| && 0 <= c < |s|
    ensures r == a || r == b || r == c
  {
    if cmp(s[a], s[b]) < 0 then
      if cmp(s[b], s[c]) < 0 then b else if cmp(s[a], s[c]) < 0 then c else a
    else if cmp(s[b], s[c]) > 0 then b
    else if cmp(s[a], s[c]) < 0 then a else c
  }

  ghost predicate Between<T>(cmp: Cmp<T>, x: T, m: T, y: T)
  {
    cmp(x, m) <= 0 && cmp(m, y) <= 0
  }

  /** It is a median: one of the other two is no greater and the other no smaller. */
  lemma Med3IsMedian<T(!new)>(cmp: Cmp<T>, s: seq<T>, a: int, b: int, c: int)
    requires Preorder(cmp) && 0 <= a < |s| && 0 <= b < |s| && 0 <= c < |s|
    ensures var r := Med3(cmp, s, a, b, c);
            || (r == a && (Between(cmp, s[b], s[a], s[c]) || Between(cmp, s[c], s[a], s[b])))
            || (r == b && (Between(cmp, s[a], s[b], s[c]) || Between(cmp, s[c], s[b], s[a])))
            || (r == c && (Between(cmp, s[a], s[c], s[b]) || Between(cmp, s[b], s[c], s[a])))
  {
  }

  // ---------------------------------------------------------------- insertion sort

  /** In order but for the element at `p`, which is at most all that follow it. */
  ghost predicate AscBut<T>(cmp: Cmp<T>, s: seq<T>, lo: int, hi: int, p: int)
    requires 0 <= lo && hi <= |s|
  {
    && (forall i, j :: lo <= i < j < hi && i != p && j != p ==> cmp(s[i], s[j]) <= 0)
    && (forall j :: lo <= p < j < hi ==> cmp(s[p], s[j]) <= 0)
  }

  lemma InsertStep<T(!new)>(cmp: Cmp<T>, s: seq<T>, lo: int, hi: int, p: int)
    requires Preorder(cmp) && 0 <= lo < p < hi <= |s| && AscBut(cmp, s, lo, hi, p) && cmp(s[p - 1], s[p]) > 0
    ensures AscBut(cmp, Swapped(s, p, p - 1), lo, hi, p - 1)
  {
  }

  lemma InsertDone<T(!new)>(cmp: Cmp<T>, s: seq<T>, lo: int, hi: int, p: int)
    requires Preorder(cmp) && 0 <= lo <= p < hi <= |s| && AscBut(cmp, s, lo, hi, p) && (p > lo ==> cmp(s[p - 1], s[p]) <= 0)
    ensures Asc(cmp, s, lo, hi)
  {
    forall i, j | lo <= i < j < hi
      ensures cmp(s[i], s[j]) <= 0
    {
      if j == p && i < p - 1 {
        assert cmp(s[i], s[p - 1]) <= 0;
      }
    }
  }

  method Swap<T>(a: array<T>, i: int, j: int)
    requires 0 <= i < a.Length && 0 <= j < a.Length
    modifies a
    ensures a[..] == Swapped(old(a[..]), i, j)
  {
    a[i], a[j] := a[j], a[i];
  }

  /** The loops that insert each element into the sorted part before it. */
  method InsertionSort<T(!new)>(a: array<T>, lo: nat, n: nat, cmp: Cmp<T>)
    requires Preorder(cmp) && lo + n <= a.Length
    modifies a
    ensures Perm(old(a[..]), a[..], lo, lo + n) && Asc(cmp, a[..], lo, lo + n)
  {
    hide Preorder, Perm, AscBut, Asc;
    ghost var was := a[..];
    PermSelf(was, lo, lo + n);
    AscNone(cmp, was, lo);
    if n == 0 {
      return;
    }
    var pm := lo + 1;
    while pm < lo + n
      invariant lo < pm <= lo + n
      invariant Perm(was, a[..], lo, lo + n) && Asc(cmp, a[..], lo, pm)
    {
      Insert(a, lo, pm, lo + n, cmp, was);
      pm := pm + 1;
    }
  }

  lemma AscNone<T>(cmp: Cmp<T>, s: seq<T>, lo: int)
    requires 0 <= lo <= |s|
    ensures Asc(cmp, s, lo, lo) && (lo < |s| ==> Asc(cmp, s, lo, lo + 1))
  {
  }

  /** The inner loop: the element at `pm` goes down to its place. */
  method Insert<T(!new)>(a: array<T>, lo: nat, pm: nat, ghost hi: nat, cmp: Cmp<T>, ghost was: seq<T>)
    requires Preorder(cmp) && lo < pm < hi <= a.Length && Perm(was, a[..], lo, hi) && Asc(cmp, a[..], lo, pm)
    modifies a
    ensures Perm(was, a[..], lo, hi) && Asc(cmp, a[..], lo, pm + 1)
  {
    hide Preorder, Perm, AscBut, Asc, Swapped;
    var pl := pm;
    Next(cmp, a[..], lo, pm);
    while pl > lo && cmp(a[pl - 1], a[pl]) > 0
      invariant lo <= pl <= pm < hi
      invariant Perm(was, a[..], lo, hi) && AscBut(cmp, a[..], lo, pm + 1, pl)
    {
      InsertStep(cmp, a[..], lo, pm + 1, pl);
      SwapIn(a, pl, pl - 1, was, lo, hi);
      pl := pl - 1;
    }
    InsertDone(cmp, a[..], lo, pm + 1, pl);
  }

  lemma Next<T>(cmp: Cmp<T>, s: seq<T>, lo: int, p: int)
    requires 0 <= lo < p < |s| && Asc(cmp, s, lo, p)
    ensures AscBut(cmp, s, lo, p + 1, p)
  {
  }

  // ---------------------------------------------------------------- the partition

  /** Elements equal to the pivot are kept at both ends: from `lo` to `pa` and after `pd`. Smaller ones
      are before `pb`, greater ones after `pc`. The pivot is the element at `lo`. */
  ghost predicate Parts<T>(cmp: Cmp<T>, s: seq<T>, lo: int, pa: int, pb: int, pc: int, pd: int, hi: int)
  {
    && 0 <= lo < pa <= pb <= pc + 1 && pc <= pd < hi <= |s|
    && (forall k :: lo <= k < pa ==> cmp(s[k], s[lo]) == 0)
    && (forall k :: pa <= k < pb ==> cmp(s[k], s[lo]) < 0)
    && (forall k :: pc < k <= pd ==> cmp(s[k], s[lo]) > 0)
    && (forall k :: pd < k < hi ==> cmp(s[k], s[lo]) == 0)
  }

  lemma PartsStart<T(!new)>(cmp: Cmp<T>, s: seq<T>, lo: int, hi: int)
    requires Preorder(cmp) && 0 <= lo && lo + 1 < hi <= |s|
    ensures Parts(cmp, s, lo, lo + 1, lo + 1, hi - 1, hi - 1, hi)
  {
    assert cmp(s[lo], s[lo]) < 0 <==> cmp(s[lo], s[lo]) > 0;
  }

  lemma PartsUp<T>(cmp: Cmp<T>, s: seq<T>, lo: int, pa: int, pb: int, pc: int, pd: int, hi: int)
    requires Parts(cmp, s, lo, pa, pb, pc, pd, hi) && pb <= pc
    ensures cmp(s[pb], s[lo]) < 0 ==> Parts(cmp, s, lo, pa, pb + 1, pc, pd, hi)
    ensures cmp(s[pb], s[lo]) == 0 ==> Parts(cmp, Swapped(s, pa, pb), lo, pa + 1, pb + 1, pc, pd, hi)
  {
  }

  lemma PartsDown<T>(cmp: Cmp<T>, s: seq<T>, lo: int, pa: int, pb: int, pc: int, pd: int, hi: int)
    requires Parts(cmp, s, lo, pa, pb, pc, pd, hi) && pb <= pc
    ensures cmp(s[pc], s[lo]) > 0 ==> Parts(cmp, s, lo, pa, pb, pc - 1, pd, hi)
    ensures cmp(s[pc], s[lo]) == 0 ==> Parts(cmp, Swapped(s, pc, pd), lo, pa, pb, pc - 1, pd - 1, hi)
  {
  }

  lemma PartsSwap<T>(cmp: Cmp<T>, s: seq<T>, lo: int, pa: int, pb: int, pc: int, pd: int, hi: int)
    requires Parts(cmp, s, lo, pa, pb, pc, pd, hi) && pb <= pc && cmp(s[pb], s[lo]) > 0 && cmp(s[pc], s[lo]) < 0
    ensures pb < pc && Parts(cmp, Swapped(s, pb, pc), lo, pa, pb + 1, pc - 1, pd, hi)
  {
  }

  lemma PartsIn<T>(cmp: Cmp<T>, s: seq<T>, lo: int, pa: int, pb: int, pc: int, pd: int, hi: int)
    requires Parts(cmp, s, lo, pa, pb, pc, pd, hi)
    ensures 0 <= lo < pa <= pb <= pc + 1 && pc <= pd < hi <= |s|
  {
  }

  /** A swap inside the segment. */
  method SwapIn<T>(a: array<T>, i: int, j: int, ghost was: seq<T>, ghost lo: int, ghost hi: int)
    requires 0 <= lo <= i < hi <= a.Length && lo <= j < hi && Perm(was, a[..], lo, hi)
    modifies a
    ensures a[..] == Swapped(old(a[..]), i, j) && Perm(was, a[..], lo, hi)
  {
    hide Perm, Swapped;
    PermSwap(a[..], i, j, lo, hi);
    PermTrans(was, a[..], Swapped(a[..], i, j), lo, hi);
    Swap(a, i, j);
  }

  /** The first inner loop of the partition: `pb` goes up. */
  method ScanUp<T>(a: array<T>, cmp: Cmp<T>, lo: int, pa0: int, pb0: int, pc: int, pd: int, hi: int, cnt0: int, ghost was: seq<T>)
    returns (pa: int, pb: int, cnt: int)
    requires 0 <= lo <= hi && Parts(cmp, a[..], lo, pa0, pb0, pc, pd, hi) && Perm(was, a[..], lo, hi)
    modifies a
    ensures Parts(cmp, a[..], lo, pa, pb, pc, pd, hi) && Perm(was, a[..], lo, hi) && pb0 <= pb
    ensures pb <= pc ==> cmp(a[..][pb], a[..][lo]) > 0
    ensures cnt == 0 ==> cnt0 == 0 && pa == pa0 && a[..] == old(a[..])
  {
    hide Parts, Perm, Swapped;
    pa, pb, cnt := pa0, pb0, cnt0;
    PartsIn(cmp, a[..], lo, pa, pb, pc, pd, hi);
    while pb <= pc && cmp(a[pb], a[lo]) <= 0
      invariant 0 <= lo < pa <= pb <= pc + 1 && pc <= pd < hi <= a.Length && pb0 <= pb
      invariant Parts(cmp, a[..], lo, pa, pb, pc, pd, hi) && Perm(was, a[..], lo, hi)
      invariant cnt == 0 ==> cnt0 == 0 && pa == pa0 && a[..] == old(a[..])
    {
      PartsUp(cmp, a[..], lo, pa, pb, pc, pd, hi);
      if cmp(a[pb], a[lo]) == 0 {
        cnt := 1;
        SwapIn(a, pa, pb, was, lo, hi);
        pa := pa + 1;
      }
      pb := pb + 1;
    }
  }

  /** The second one: `pc` goes down. */
  method ScanDown<T>(a: array<T>, cmp: Cmp<T>, lo: int, pa: int, pb: int, pc0: int, pd0: int, hi: int, cnt0: int, ghost was: seq<T>)
    returns (pc: int, pd: int, cnt: int)
    requires 0 <= lo <= hi && Parts(cmp, a[..], lo, pa, pb, pc0, pd0, hi) && Perm(was, a[..], lo, hi)
    requires pb <= pc0 ==> cmp(a[..][pb], a[..][lo]) > 0
    modifies a
    ensures Parts(cmp, a[..], lo, pa, pb, pc, pd, hi) && Perm(was, a[..], lo, hi) && pc <= pc0
    ensures pb <= pc ==> cmp(a[..][pb], a[..][lo]) > 0 && cmp(a[..][pc], a[..][lo]) < 0
    ensures cnt == 0 ==> cnt0 == 0 && pd == pd0 && a[..] == old(a[..])
  {
    hide Parts, Perm;
    pc, pd, cnt := pc0, pd0, cnt0;
    PartsIn(cmp, a[..], lo, pa, pb, pc, pd, hi);
    while pb <= pc && cmp(a[pc], a[lo]) >= 0
      invariant 0 <= lo < pa <= pb <= pc + 1 && pc <= pd < hi <= a.Length && pc <= pc0
      invariant Parts(cmp, a[..], lo, pa, pb, pc, pd, hi) && Perm(was, a[..], lo, hi)
      invariant pb <= pc ==> cmp(a[..][pb], a[..][lo]) > 0
      invariant cnt == 0 ==> cnt0 == 0 && pd == pd0 && a[..] == old(a[..])
    {
      PartsDown(cmp, a[..], lo, pa, pb, pc, pd, hi);
      if cmp(a[pc], a[lo]) == 0 {
        cnt := 1;
        SwapIn(a, pc, pd, was, lo, hi);
        pd := pd - 1;
      }
      pc := pc - 1;
    }
  }

  /** The for loop of the partition. When it has exchanged nothing, smaller elements were already
      before greater ones, and none but the first is equal to the pivot. */
  method Partition<T(!new)>(a: array<T>, cmp: Cmp<T>, lo: int, hi: int, ghost was: seq<T>)
    returns (pa: int, pb: int, pc: int, pd: int, cnt: int)
    requires Preorder(cmp) && 0 <= lo && lo + 1 < hi <= a.Length && Perm(was, a[..], lo, hi)
    modifies a
    ensures Parts(cmp, a[..], lo, pa, pb, pc, pd, hi) && Perm(was, a[..], lo, hi) && pb == pc + 1
    ensures cnt == 0 ==> a[..] == old(a[..]) && pa == lo + 1 && pd == hi - 1
  {
    hide Preorder, Parts, Perm;
    pa, pb, pc, pd, cnt := lo + 1, lo + 1, hi - 1, hi - 1, 0;
    PartsStart(cmp, a[..], lo, hi);
    while true
      invariant Parts(cmp, a[..], lo, pa, pb, pc, pd, hi) && Perm(was, a[..], lo, hi)
      invariant cnt == 0 ==> a[..] == old(a[..]) && pa == lo + 1 && pd == hi - 1
      decreases pc - pb + 1
    {
      PartsIn(cmp, a[..], lo, pa, pb, pc, pd, hi);
      pa, pb, cnt := ScanUp(a, cmp, lo, pa, pb, pc, pd, hi, cnt, was);
      pc, pd, cnt := ScanDown(a, cmp, lo, pa, pb, pc, pd, hi, cnt, was);
      PartsIn(cmp, a[..], lo, pa, pb, pc, pd, hi);
      if pb > pc {
        break;
      }
      PartsSwap(cmp, a[..], lo, pa, pb, pc, pd, hi);
      SwapIn(a, pb, pc, was, lo, hi);
      cnt := 1;
      pb := pb + 1;
      pc := pc - 1;
    }
  }

  // ---------------------------------------------------------------- the block swaps

  /** Blocks of `n` elements at `i` and `j` have changed places. */
  ghost predicate BlocksSwapped<T>(s: seq<T>, t: seq<T>, i: int, j: int, n: int)
    requires 0 <= i && 0 <= n && i + n <= j && j + n <= |s|
  {
    && |t| == |s|
    && (forall k :: i <= k < i + n ==> t[k] == s[k - i + j])
    && (forall k :: j <= k < j + n ==> t[k] == s[k - j + i])
    && (forall k :: 0 <= k < |s| && !(i <= k < i + n) && !(j <= k < j + n) ==> t[k] == s[k])
  }

  lemma BlocksNext<T>(s: seq<T>, t: seq<T>, i: int, j: int, n: int)
    requires 0 <= i && 0 <= n && i + n + 1 <= j && j + n + 1 <= |s| && BlocksSwapped(s, t, i, j, n)
    ensures BlocksSwapped(s, Swapped(t, i + n, j + n), i, j, n + 1)
  {
  }

  /** vecswap */
  method VecSwap<T>(a: array<T>, i: int, j: int, n: int, ghost was: seq<T>, ghost lo: int, ghost hi: int)
    requires 0 <= lo <= i && 0 <= n && i + n <= j && j + n <= hi <= a.Length && Perm(was, a[..], lo, hi)
    modifies a
    ensures BlocksSwapped(old(a[..]), a[..], i, j, n) && Perm(was, a[..], lo, hi)
  {
    hide Perm, Swapped, BlocksSwapped;
    BlocksNone(a[..], i, j);
    var k := 0;
    while k < n
      invariant 0 <= k <= n && BlocksSwapped(old(a[..]), a[..], i, j, k) && Perm(was, a[..], lo, hi)
    {
      BlocksNext(old(a[..]), a[..], i, j, k);
      SwapIn(a, i + k, j + k, was, lo, hi);
      k := k + 1;
    }
  }

  lemma BlocksNone<T>(s: seq<T>, i: int, j: int)
    requires 0 <= i <= j <= |s|
    ensures BlocksSwapped(s, s, i, j, 0)
  {
  }

  /** Smaller than the pivot, then equal, then greater. */
  ghost predicate Split<T>(cmp: Cmp<T>, s: seq<T>, v: T, lo: int, m1: int, m2: int, hi: int)
  {
    && 0 <= lo <= m1 < m2 <= hi <= |s|
    && (forall k :: lo <= k < m1 ==> cmp(s[k], v) < 0)
    && (forall k :: m1 <= k < m2 ==> cmp(s[k], v) == 0)
    && (forall k :: m2 <= k < hi ==> cmp(s[k], v) > 0)
  }

  function Min(a: int, b: int): int { if a < b then a else b }

  lemma LeftSwapped<T>(cmp: Cmp<T>, s: seq<T>, t: seq<T>, lo: int, pa: int, pb: int, pc: int, pd: int, hi: int)
    requires Parts(cmp, s, lo, pa, pb, pc, pd, hi) && pb == pc + 1
    requires var r := Min(pa - lo, pb - pa); BlocksSwapped(s, t, lo, pb - r, r)
    ensures |t| == |s| && 0 <= lo && hi <= |s|
    ensures forall k :: lo <= k < lo + (pb - pa) ==> cmp(t[k], s[lo]) < 0
    ensures forall k :: lo + (pb - pa) <= k < pb ==> cmp(t[k], s[lo]) == 0
    ensures forall k :: pb <= k < hi ==> t[k] == s[k]
  {
  }

  lemma RightSwapped<T>(cmp: Cmp<T>, s: seq<T>, t: seq<T>, u: seq<T>, lo: int, pa: int, pb: int, pc: int, pd: int, hi: int)
    requires Parts(cmp, s, lo, pa, pb, pc, pd, hi) && pb == pc + 1 && |t| == |s|
    requires forall k :: lo <= k < lo + (pb - pa) ==> cmp(t[k], s[lo]) < 0
    requires forall k :: lo + (pb - pa) <= k < pb ==> cmp(t[k], s[lo]) == 0
    requires forall k :: pb <= k < hi ==> t[k] == s[k]
    requires var r := Min(pd - pc, hi - pd - 1); BlocksSwapped(t, u, pb, hi - r, r)
    ensures Split(cmp, u, s[lo], lo, lo + (pb - pa), hi - (pd - pc), hi)
  {
  }

  // ---------------------------------------------------------------- putting the parts together

  /** The part before `lo` is sorted and at most the rest. */
  ghost predicate Front<T>(cmp: Cmp<T>, s: seq<T>, start: int, lo: int, hi: int)
  {
    0 <= start <= lo <= hi <= |s| && Asc(cmp, s, start, lo) && Below(cmp, s, start, lo, hi)
  }

  /** It stays so whatever happens to the rest. */
  lemma FrontPerm<T>(cmp: Cmp<T>, s: seq<T>, t: seq<T>, start: int, lo: int, hi: int)
    requires Front(cmp, s, start, lo, hi) && Perm(s, t, lo, hi)
    ensures Front(cmp, t, start, lo, hi)
  {
    forall i, j | start <= i < lo && lo <= j < hi
      ensures cmp(t[i], t[j]) <= 0
    {
      var k := PermSource(s, t, lo, hi, j);
      assert s[i] == t[i];
    }
  }

  lemma FrontAll<T>(cmp: Cmp<T>, s: seq<T>, start: int, lo: int, hi: int)
    requires Front(cmp, s, start, lo, hi) && Asc(cmp, s, lo, hi)
    ensures Asc(cmp, s, start, hi)
  {
  }

  /** The smaller elements, once sorted, and the equal ones extend the sorted part. */
  lemma FrontGrows<T(!new)>(cmp: Cmp<T>, u: seq<T>, w: seq<T>, v: T, start: int, lo: int, m1: int, m2: int, hi: int)
    requires Preorder(cmp) && Front(cmp, u, start, lo, hi) && Split(cmp, u, v, lo, m1, m2, hi)
    requires Perm(u, w, lo, m1) && Asc(cmp, w, lo, m1)
    ensures Front(cmp, w, start, m2, hi)
  {
    hide Perm;
    SplitPerm(cmp, u, w, v, lo, m1, m2, hi);
    PermWiden(u, w, lo, m1, lo, hi);
    FrontPerm(cmp, u, w, start, lo, hi);
    SplitOrder(cmp, w, v, lo, m1, m2, hi);
    SplitAsc(cmp, w, v, lo, m1, m2, hi);
  }

  lemma SplitPerm<T>(cmp: Cmp<T>, u: seq<T>, w: seq<T>, v: T, lo: int, m1: int, m2: int, hi: int)
    requires Split(cmp, u, v, lo, m1, m2, hi) && Perm(u, w, lo, m1)
    ensures Split(cmp, w, v, lo, m1, m2, hi)
  {
    forall k | lo <= k < m1
      ensures cmp(w[k], v) < 0
    {
      var j := PermSource(u, w, lo, m1, k);
    }
  }

  lemma SplitOrder<T(!new)>(cmp: Cmp<T>, s: seq<T>, v: T, lo: int, m1: int, m2: int, hi: int)
    requires Preorder(cmp) && Split(cmp, s, v, lo, m1, m2, hi)
    ensures Below(cmp, s, lo, m2, hi)
  {
    forall i, j | lo <= i < m2 && m2 <= j < hi
      ensures cmp(s[i], s[j]) <= 0
    {
      assert cmp(s[i], v) <= 0 && cmp(v, s[j]) <= 0;
    }
  }

  lemma SplitAsc<T(!new)>(cmp: Cmp<T>, s: seq<T>, v: T, lo: int, m1: int, m2: int, hi: int)
    requires Preorder(cmp) && Split(cmp, s, v, lo, m1, m2, hi) && Asc(cmp, s, lo, m1)
    ensures Asc(cmp, s, lo, m2)
  {
    forall i, j | lo <= i < j < m2
      ensures cmp(s[i], s[j]) <= 0
    {
      if j >= m1 {
        assert cmp(s[i], v) <= 0 && cmp(s[j], v) == 0;
        assert !(cmp(v, s[j]) > 0);
      }
    }
  }

  /** The choice of the pivot. */
  method ChoosePivot<T>(a: array<T>, cmp: Cmp<T>, lo: int, n: int) returns (pm: int)
    requires 0 <= lo && 7 <= n && lo + n <= a.Length
    ensures lo <= pm < lo + n
  {
    pm := lo + n / 2;
    if n > 7 {
      var pl := lo;
      var pn := lo + (n - 1);
      if n > 40 {
        var d := n / 8;
        pl := Med3(cmp, a[..], pl, pl + d, pl + 2 * d);
        pm := Med3(cmp, a[..], pm - d, pm, pm + d);
        pn := Med3(cmp, a[..], pn - 2 * d, pn - d, pn);
      }
      pm := Med3(cmp, a[..], pl, pm, pn);
    }
  }

  /** The partition with its block swaps; `cnt` is 0 if nothing was swapped. */
  method Arrange<T(!new)>(a: array<T>, cmp: Cmp<T>, lo: int, n: int) returns (r1: int, r2: int, cnt: int, ghost v: T)
    requires Preorder(cmp) && 0 <= lo && 7 <= n && lo + n <= a.Length
    modifies a
    ensures Perm(old(a[..]), a[..], lo, lo + n)
    ensures cnt != 0 ==> Split(cmp, a[..], v, lo, lo + r1, lo + n - r2, lo + n) && r1 >= 0 && r2 >= 0
  {
    hide Preorder, Perm, Parts, Split, BlocksSwapped, Swapped;
    ghost var was := a[..];
    var hi := lo + n;
    PermSelf(was, lo, hi);
    var pm := ChoosePivot(a, cmp, lo, n);
    SwapIn(a, lo, pm, was, lo, hi);
    var pa, pb, pc, pd;
    pa, pb, pc, pd, cnt := Partition(a, cmp, lo, hi, was);
    v := a[lo];
    PartsIn(cmp, a[..], lo, pa, pb, pc, pd, hi);
    r1, r2 := pb - pa, pd - pc;
    if cnt == 0 {
      return;
    }
    ghost var s := a[..];
    var r := Min(pa - lo, pb - pa);
    VecSwap(a, lo, pb - r, r, was, lo, hi);
    LeftSwapped(cmp, s, a[..], lo, pa, pb, pc, pd, hi);
    ghost var t := a[..];
    r := Min(pd - pc, hi - pd - 1);
    VecSwap(a, pb, hi - r, r, was, lo, hi);
    RightSwapped(cmp, s, t, a[..], lo, pa, pb, pc, pd, hi);
  }

  /** qsort: a sorted permutation for every total preorder. It ends because both parts that are left to
      sort are shorter, as the pivot is in neither. */
  method Sort<T(!new)>(a: array<T>, start: int, length: int, cmp: Cmp<T>)
    requires Preorder(cmp) && 0 <= start && 0 <= length && start + length <= a.Length
    modifies a
    ensures Perm(old(a[..]), a[..], start, start + length)
    ensures Asc(cmp, a[..], start, start + length)
    decreases length
  {
    hide Preorder, Perm, Split, Front, Asc;
    ghost var was := a[..];
    ghost var hi := start + length;
    var lo, n := start, length;
    PermSelf(was, start, hi);
    FrontNone(cmp, was, start, hi);
    while true
      invariant start <= lo && 0 <= n <= length && lo + n == hi
      invariant Front(cmp, a[..], start, lo, hi) && Perm(was, a[..], start, hi)
      decreases n
    {
      ghost var s := a[..];
      if n < 7 {
        SortRest(a, start, lo, n, cmp, was);
        return;
      }
      var r1, r2, cnt, v := Arrange(a, cmp, lo, n);
      ghost var u := a[..];
      PermWiden(s, u, lo, hi, start, hi);
      PermTrans(was, s, u, start, hi);
      FrontPerm(cmp, s, u, start, lo, hi);
      if cnt == 0 {
        SortRest(a, start, lo, n, cmp, was);
        return;
      }
      SplitSizes(cmp, u, v, lo, lo + r1, hi - r2, hi);
      if r1 > 1 {
        Sort(a, lo, r1, cmp);
      } else {
        PermSelf(u, lo, lo + r1);
        AscShort(cmp, u, lo, lo + r1);
      }
      ghost var w := a[..];
      FrontGrows(cmp, u, w, v, start, lo, lo + r1, hi - r2, hi);
      PermWiden(u, w, lo, lo + r1, start, hi);
      PermTrans(was, u, w, start, hi);
      if r2 <= 1 {
        AscShort(cmp, w, hi - r2, hi);
        FrontAll(cmp, w, start, hi - r2, hi);
        return;
      }
      lo := lo + n - r2;
      n := r2;
    }
  }

  /** A rest that is sorted by insertion. */
  method SortRest<T(!new)>(a: array<T>, start: int, lo: int, n: int, cmp: Cmp<T>, ghost was: seq<T>)
    requires Preorder(cmp) && 0 <= start <= lo && 0 <= n && lo + n <= a.Length
    requires Front(cmp, a[..], start, lo, lo + n) && Perm(was, a[..], start, lo + n)
    modifies a
    ensures Perm(was, a[..], start, lo + n) && Asc(cmp, a[..], start, lo + n)
  {
    hide Preorder, Perm, Front, Asc;
    ghost var s := a[..];
    InsertionSort(a, lo, n, cmp);
    PermWiden(s, a[..], lo, lo + n, start, lo + n);
    PermTrans(was, s, a[..], start, lo + n);
    FrontPerm(cmp, s, a[..], start, lo, lo + n);
    FrontAll(cmp, a[..], start, lo, lo + n);
  }

  lemma FrontNone<T>(cmp: Cmp<T>, s: seq<T>, start: int, hi: int)
    requires 0 <= start <= hi <= |s|
    ensures Front(cmp, s, start, start, hi)
  {
  }

  lemma AscShort<T>(cmp: Cmp<T>, s: seq<T>, lo: int, hi: int)
    requires 0 <= lo && hi <= |s| && hi <= lo + 1
    ensures Asc(cmp, s, lo, hi)
  {
  }

  lemma SplitSizes<T>(cmp: Cmp<T>, s: seq<T>, v: T, lo: int, m1: int, m2: int, hi: int)
    requires Split(cmp, s, v, lo, m1, m2, hi)
    ensures 0 <= lo <= m1 < m2 <= hi <= |s|
  {
  }
}
