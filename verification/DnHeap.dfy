/** The binary heap of sys/netinet/ipfw/dn_heap.c.

  An object is a memory address (`nat`); the `int32_t` that every object reserves at offset
  `ofs` is the cell `pos[obj]` of the `Offsets` shared by all heaps an object can be in.
  Keys are the unbounded reading of the 64-bit timestamps compared by DN_KEY_LT. */
module DnHeap {
  import opened Basics
  import opened Bits

  datatype Entry = Entry(key: int, obj: nat)

  /** What a scan callback asks for: HEAP_SCAN_DEL and HEAP_SCAN_END. */
  datatype ScanReply = ScanReply(del: bool, end: bool)

  /** The value RESET_OFFSET stores in an object that leaves its heap. */
  const RESET := -16

  /** The back-pointer cells embedded in the objects. */
  class Offsets {
    var pos: map<nat, int>

    constructor ()
      ensures pos == map[]
    {
      pos := map[];
    }
  }

  function Father(x: int): int { (x - 1) / 2 }

  function Left(x: int): int { x + x + 1 }

  ghost predicate Above(s: seq<Entry>, i: nat)
    requires 1 <= i < |s|
  {
    s[Father(i)].key <= s[i].key
  }

  /** Heap order of the first `n` slots, leaving out the pair (father of hole, hole). */
  ghost predicate OrderedBut(s: seq<Entry>, n: nat, hole: int)
    requires n <= |s|
  {
    forall i :: 1 <= i < n && i != hole ==> Above(s, i)
  }

  ghost predicate Ordered(s: seq<Entry>, n: nat)
    requires n <= |s|
  {
    OrderedBut(s, n, -1)
  }

  /** In an ordered prefix the first entry carries the smallest key. */
  lemma {:induction false} TopIsMinimal(s: seq<Entry>, n: nat, i: nat)
    requires i < n <= |s| && Ordered(s, n)
    ensures s[0].key <= s[i].key
    decreases i
  {
    if i > 0 {
      assert Above(s, i);
      TopIsMinimal(s, n, Father(i));
    }
  }

  /** The first `n` slots hold exactly the bindings of `contents` (object to key), each once;
      `slot` says where. */
  ghost predicate Placed(s: seq<Entry>, n: nat, slot: map<nat, nat>, contents: map<nat, int>)
    requires n <= |s|
  {
    && slot.Keys == contents.Keys
    && (forall i :: 0 <= i < n ==> s[i].obj in slot && slot[s[i].obj] == i && contents[s[i].obj] == s[i].key)
    && (forall o :: o in slot ==> slot[o] < n && s[slot[o]].obj == o)
  }

  /** The back-pointers of all stored objects but `except` are right. */
  ghost predicate Tracked(slot: map<nat, nat>, pos: map<nat, int>, except: set<nat>)
  {
    forall o :: o in slot && o !in except ==> o in pos && pos[o] == slot[o]
  }

  /** Two cell memories agree on every address outside `objs`. */
  ghost predicate SameOutside(pos: map<nat, int>, pos': map<nat, int>, objs: set<nat>)
  {
    && (forall o :: o !in objs ==> (o in pos <==> o in pos'))
    && (forall o :: o !in objs && o in pos' ==> pos'[o] == pos[o])
  }

  /** The loop invariant of the bubble-up: only the pair (father of son, son) may be out of
      order, and the father of `son` may replace it above its children. */
  ghost predicate Bubbling(s: seq<Entry>, n: nat, son: nat)
    requires son < n <= |s|
  {
    && OrderedBut(s, n, son)
    && (son > 0 && Left(son) < n ==> s[Father(son)].key <= s[Left(son)].key)
    && (son > 0 && Left(son) + 1 < n ==> s[Father(son)].key <= s[Left(son) + 1].key)
  }

  function Swapped(s: seq<Entry>, i: nat, j: nat): seq<Entry>
    requires i < |s| && j < |s|
  {
    s[i := s[j]][j := s[i]]
  }

  lemma BubbleStep(s: seq<Entry>, n: nat, son: nat)
    requires 0 < son < n <= |s| && Bubbling(s, n, son)
    requires s[son].key <= s[Father(son)].key
    ensures Bubbling(Swapped(s, son, Father(son)), n, Father(son))
  {
    var f := Father(son);
    var t := Swapped(s, son, f);
    assert f > 0 ==> Above(s, f);
    assert Left(f) < n && Left(f) != son ==> Above(s, Left(f));
    assert Left(f) + 1 < n && Left(f) + 1 != son ==> Above(s, Left(f) + 1);
    forall i | 1 <= i < n && i != f
      ensures Above(t, i)
    {
      assert i != son ==> Above(s, i);
      assert Father(i) == son ==> i == Left(son) || i == Left(son) + 1;
    }
  }

  lemma BubbleStart(s: seq<Entry>, n: nat, start: nat)
    requires start < n <= |s| && OrderedBut(s, n, start) && n <= Left(start)
    ensures Bubbling(s, n, start)
  {
  }

  lemma BubbleDone(s: seq<Entry>, n: nat, son: nat)
    requires son < n <= |s| && Bubbling(s, n, son)
    requires son == 0 || s[Father(son)].key <= s[son].key
    ensures Ordered(s, n)
  {
  }

  lemma PlacedAt(s: seq<Entry>, n: nat, slot: map<nat, nat>, contents: map<nat, int>, i: nat)
    requires i < n <= |s| && Placed(s, n, slot, contents)
    ensures s[i].obj in slot && slot[s[i].obj] == i && s[i].obj in contents && contents[s[i].obj] == s[i].key
  {
  }

  lemma PlacedObj(s: seq<Entry>, n: nat, slot: map<nat, nat>, contents: map<nat, int>, o: nat)
    requires n <= |s| && Placed(s, n, slot, contents) && o in contents
    ensures o in slot && slot[o] < n && s[slot[o]] == Entry(contents[o], o)
  {
  }

  lemma InsertPlaces(s: seq<Entry>, t: seq<Entry>, n: nat, slot: map<nat, nat>, contents: map<nat, int>, e: Entry)
    requires n <= |s| && n < |t| && t[..n] == s[..n]
    requires Placed(s, n, slot, contents) && Ordered(s, n) && e.obj !in contents
    ensures Placed(t[n := e], n + 1, slot[e.obj := n], contents[e.obj := e.key])
    ensures OrderedBut(t[n := e], n + 1, n)
  {
    var u := t[n := e];
    assert forall i :: 0 <= i < n ==> u[i] == t[..n][i] && s[i] == s[..n][i];
    assert forall i :: 1 <= i < n ==> Above(s, i) ==> Above(u, i);
  }

  lemma SwapPlaces(s: seq<Entry>, n: nat, slot: map<nat, nat>, contents: map<nat, int>, i: nat, j: nat)
    requires i < n <= |s| && j < n && i != j && Placed(s, n, slot, contents)
    ensures Placed(Swapped(s, i, j), n, slot[s[j].obj := i][s[i].obj := j], contents)
  {
  }

  /** After the exchange the back-pointer of entry `i` is set; the entry that moves up is in `unknown`. */
  lemma SwapTracks(s: seq<Entry>, n: nat, slot: map<nat, nat>, contents: map<nat, int>, i: nat, j: nat, pos: map<nat, int>, unknown: set<nat>)
    requires i < n <= |s| && j < n && i != j && Placed(s, n, slot, contents)
    requires Tracked(slot, pos, unknown) && s[i].obj in unknown
    ensures var slot' := slot[s[j].obj := i][s[i].obj := j];
            Tracked(slot', pos[s[j].obj := i], unknown) && SameOutside(pos, pos[s[j].obj := i], contents.Keys) && slot'.Keys == slot.Keys
  {
  }

  lemma SwappedParts(s: seq<Entry>, i: nat, j: nat, n: nat)
    requires i < n <= |s| && j < n
    ensures |Swapped(s, i, j)| == |s| && Swapped(s, i, j)[n..] == s[n..]
    ensures Swapped(s, i, j)[i] == s[j] && Swapped(s, i, j)[j] == s[i]
  {
  }

  /** The state of heap_extract's loop: slot `hole` is vacant, the rest is placed and ordered,
      and whatever is below the hole may move up. */
  ghost predicate HolePlaced(s: seq<Entry>, n: nat, slot: map<nat, nat>, contents: map<nat, int>, hole: nat)
    requires n <= |s|
  {
    && slot.Keys == contents.Keys
    && (forall i :: 0 <= i < n && i != hole ==> s[i].obj in slot && slot[s[i].obj] == i && contents[s[i].obj] == s[i].key)
    && (forall o :: o in slot ==> slot[o] < n && slot[o] != hole && s[slot[o]].obj == o)
  }

  ghost predicate HoleOrdered(s: seq<Entry>, n: nat, hole: nat)
    requires hole < n <= |s|
  {
    && (forall i :: 1 <= i < n && i != hole && Father(i) != hole ==> Above(s, i))
    && (hole > 0 && Left(hole) < n ==> s[Father(hole)].key <= s[Left(hole)].key)
    && (hole > 0 && Left(hole) + 1 < n ==> s[Father(hole)].key <= s[Left(hole) + 1].key)
  }

  lemma HoleStart(s: seq<Entry>, n: nat, slot: map<nat, nat>, contents: map<nat, int>, hole: nat)
    requires hole < n <= |s| && Ordered(s, n) && Placed(s, n, slot, contents)
    ensures HoleOrdered(s, n, hole)
    ensures s[hole].obj in contents && HolePlaced(s, n, slot - {s[hole].obj}, contents - {s[hole].obj}, hole)
  {
    assert hole > 0 ==> Above(s, hole);
    assert Left(hole) < n ==> Above(s, Left(hole));
    assert Left(hole) + 1 < n ==> Above(s, Left(hole) + 1);
  }

  /** The hole sinks to its child with the smaller key. */
  lemma HoleStep(s: seq<Entry>, n: nat, hole: nat, child: nat)
    requires hole < child < n <= |s| && HoleOrdered(s, n, hole) && Father(child) == hole
    requires child == Left(hole) && child + 1 < n ==> s[child].key <= s[child + 1].key
    requires child != Left(hole) ==> s[child].key <= s[child - 1].key
    ensures HoleOrdered(s[hole := s[child]], n, child)
  {
    var t := s[hole := s[child]];
    forall i | 1 <= i < n && i != child && Father(i) != child
      ensures Above(t, i)
    {
      assert i != hole && Father(i) != hole ==> Above(s, i);
      assert Father(i) == hole ==> i == Left(hole) || i == Left(hole) + 1;
    }
    assert Left(child) < n ==> Above(s, Left(child));
    assert Left(child) + 1 < n ==> Above(s, Left(child) + 1);
  }

  lemma HoleMoves(s: seq<Entry>, n: nat, slot: map<nat, nat>, contents: map<nat, int>, hole: nat, child: nat)
    requires hole < n <= |s| && child < n && child != hole && HolePlaced(s, n, slot, contents, hole)
    ensures s[child].obj in slot && s[child].obj in contents
    ensures HolePlaced(s[hole := s[child]], n, slot[s[child].obj := hole], contents, child)
  {
  }

  /** Filling the hole, which is a leaf, with the last entry leaves one pair to be bubbled. */
  lemma HoleFilled(s: seq<Entry>, max: nat, slot: map<nat, nat>, contents: map<nat, int>, hole: nat)
    requires hole < max < |s| && HolePlaced(s, max + 1, slot, contents, hole)
    ensures s[max].obj in slot && Placed(s[hole := s[max]], max, slot[s[max].obj := hole], contents)
    ensures slot[s[max].obj := hole].Keys == contents.Keys
  {
  }

  lemma HoleFilledOrder(s: seq<Entry>, max: nat, hole: nat)
    requires hole < max < |s| && max < Left(hole) && HoleOrdered(s, max + 1, hole)
    ensures OrderedBut(s[hole := s[max]], max, hole)
  {
    var t := s[hole := s[max]];
    forall i | 1 <= i < max && i != hole
      ensures Above(t, i)
    {
      assert Father(i) != hole;
      assert Above(s, i);
    }
  }

  lemma HoleAtEnd(s: seq<Entry>, max: nat, slot: map<nat, nat>, contents: map<nat, int>)
    requires max < |s| && HolePlaced(s, max + 1, slot, contents, max) && HoleOrdered(s, max + 1, max)
    ensures slot.Keys == contents.Keys && Placed(s, max, slot, contents) && Ordered(s, max)
  {
  }

  function Objs(s: seq<Entry>): set<nat>
  {
    set e | e in s :: e.obj
  }

  /** The capacity heap_resize allocates. */
  function RoundUp(n: nat): (r: nat)
    ensures n <= r
  {
    var a := Or(n, Shr(n, 1));
    var b := Or(a, Shr(a, 2));
    var c := Or(b, Shr(b, 4));
    var d := Or(c, Shr(c, 8));
    OrGrows(n, Shr(n, 1));
    OrGrows(a, Shr(a, 2));
    OrGrows(b, Shr(b, 4));
    OrGrows(c, Shr(c, 8));
    OrGrows(d, Shr(d, 16));
    Or(d, Shr(d, 16))
  }

  /** For a 32-bit size it is the least number of the form 2^k - 1 that is large enough. */
  lemma RoundUpIsLeast(n: nat, k: nat)
    requires n < 0x1_0000_0000
    ensures RoundUp(n) == Pow2(Length(n)) - 1
    ensures n <= Pow2(k) - 1 ==> RoundUp(n) <= Pow2(k) - 1
  {
    hide Or, Shr, Length, Leading;
    var a := Or(n, Shr(n, 1));
    var b := Or(a, Shr(a, 2));
    var c := Or(b, Shr(b, 4));
    var d := Or(c, Shr(c, 8));
    LeadingOne(n);
    LeadingDoubles(n, Length(n), 1);
    LeadingDoubles(a, Length(n), 2);
    LeadingDoubles(b, Length(n), 4);
    LeadingDoubles(c, Length(n), 8);
    LeadingDoubles(d, Length(n), 16);
    Pow2Is32();
    LengthIs(n, 32);
    AllOnes(RoundUp(n), Length(n), 32);
    LengthIs(n, k);
    if n < Pow2(k) {
      Pow2Mono(Length(n), k);
    }
  }

  lemma Pow2Is32()
    ensures Pow2(32) == 0x1_0000_0000
  {
    assert Pow2(8) == 256;
    assert Pow2(16) == 65536;
    assert Pow2(24) == 0x100_0000;
  }

  /** The entries of `seen` that the callback wants deleted. */
  ghost function Doomed(seen: set<nat>, fn: nat -> ScanReply): set<nat>
  {
    set o | o in seen && fn(o).del
  }

  /** Where things are after the last of `n` entries overwrote entry `i`. */
  ghost function DropSlot(s: seq<Entry>, n: nat, slot: map<nat, nat>, i: nat): map<nat, nat>
    requires i < n <= |s|
  {
    if i == n - 1 then slot - {s[i].obj} else (slot - {s[i].obj})[s[n - 1].obj := i]
  }

  lemma DropPlaces(s: seq<Entry>, n: nat, slot: map<nat, nat>, contents: map<nat, int>, i: nat)
    requires i < n <= |s| && Placed(s, n, slot, contents)
    ensures Placed(s[i := s[n - 1]], n - 1, DropSlot(s, n, slot, i), contents - {s[i].obj})
  {
  }

  /** The state of heap_scan's loop: the first `i` entries were seen and kept, the others are
      unseen, and what is missing from the original contents is what `fn` doomed. */
  ghost predicate Scanned(s: seq<Entry>, n: nat, i: nat, seen: set<nat>, now: map<nat, int>, was: map<nat, int>,
                          fn: nat -> ScanReply)
    requires i <= n <= |s|
  {
    && (forall k :: 0 <= k < i ==> s[k].obj in seen)
    && (forall k :: i <= k < n ==> s[k].obj !in seen)
    && seen <= was.Keys && now == was - Doomed(seen, fn)
  }

  /** Only the last call may have asked to stop. */
  ghost predicate Stopping(seen: set<nat>, fn: nat -> ScanReply, ended: bool)
  {
    && (ended ==> exists o :: o in seen && fn(o).end)
    && (!ended ==> forall o :: o in seen ==> !fn(o).end)
    && (forall a, b :: a in seen && b in seen && fn(a).end && fn(b).end ==> a == b)
  }

  lemma ScanStep(s: seq<Entry>, n: nat, slot: map<nat, nat>, now: map<nat, int>, i: nat, seen: set<nat>,
                 was: map<nat, int>, fn: nat -> ScanReply)
    requires i < n <= |s| && Placed(s, n, slot, now)
    requires Scanned(s, n, i, seen, now, was, fn) && Stopping(seen, fn, false)
    ensures var o := s[i].obj;
            && o !in seen && o in was && Stopping(seen + {o}, fn, fn(o).end)
            && (fn(o).del ==> Scanned(s[i := s[n - 1]], n - 1, i, seen + {o}, now - {o}, was, fn)
                              && |Doomed(seen + {o}, fn)| == |Doomed(seen, fn)| + 1)
            && (!fn(o).del ==> Scanned(s, n, i + 1, seen + {o}, now, was, fn)
                               && Doomed(seen + {o}, fn) == Doomed(seen, fn))
  {
    var o := s[i].obj;
    if fn(o).del {
      assert Doomed(seen + {o}, fn) == Doomed(seen, fn) + {o};
      assert forall k :: i <= k < n - 1 ==> slot[s[k].obj] == k;
      assert slot[s[n - 1].obj] == n - 1;
    } else {
      assert Doomed(seen + {o}, fn) == Doomed(seen, fn);
    }
  }

  lemma ScanStart(s: seq<Entry>, n: nat, contents: map<nat, int>, fn: nat -> ScanReply)
    requires n <= |s|
    ensures Scanned(s, n, 0, {}, contents, contents, fn) && Stopping({}, fn, false) && Doomed({}, fn) == {}
  {
  }

  lemma StopDone(seen: set<nat>, fn: nat -> ScanReply, ended: bool)
    requires Stopping(seen, fn, ended)
    ensures ended ==> exists o :: o in seen && fn(o).end
    ensures forall a, b :: a in seen && b in seen && fn(a).end && fn(b).end ==> a == b
  {
  }

  lemma ScanDone(s: seq<Entry>, n: nat, slot: map<nat, nat>, i: nat, seen: set<nat>, now: map<nat, int>,
                 was: map<nat, int>, fn: nat -> ScanReply)
    requires i <= n <= |s| && Placed(s, n, slot, now) && Scanned(s, n, i, seen, now, was, fn)
    ensures seen <= was.Keys && now == was - Doomed(seen, fn)
    ensures i == n ==> seen == was.Keys
  {
    if i == n {
      forall o | o in was ensures o in seen {
        if o in now {
          assert s[slot[o]].obj == o;
        }
      }
    }
  }

  lemma NothingToOrder(s: seq<Entry>)
    ensures Ordered(s, 0)
  {
  }

  lemma ExtendOrder(s: seq<Entry>, i: nat)
    requires i < |s| && Ordered(s, i)
    ensures OrderedBut(s, i + 1, i)
  {
  }

  lemma ObjsAll(s: seq<Entry>, n: nat, slot: map<nat, nat>, contents: map<nat, int>)
    requires n <= |s| && Placed(s, n, slot, contents)
    ensures slot.Keys <= Objs(s[0..n])
  {
    forall o | o in slot ensures o in Objs(s[0..n]) {
      assert s[0..n][slot[o]].obj == o;
    }
  }

  lemma ObjsTail(s: seq<Entry>, t: seq<Entry>, i: nat, n: nat)
    requires i < n <= |s| == |t| && s[i + 1..] == t[i + 1..]
    ensures Objs(s[i..n]) - {s[i].obj} <= Objs(t[i + 1..n])
  {
    forall e | e in s[i..n] && e.obj != s[i].obj
      ensures e in t[i + 1..n]
    {
      var k :| i <= k < n && s[k] == e;
      assert t[k] == t[i + 1..][k - i - 1] == s[i + 1..][k - i - 1] == s[k];
      assert t[i + 1..n][k - i - 1] == e;
    }
  }

  class Heap {
    const cells: Offsets
    var p: array<Entry>
    var elements: nat
    ghost var contents: map<nat, int>  // the abstract value: each stored object with its key
    ghost var slot: map<nat, nat>      // where each stored object is

    ghost predicate Shaped()
      reads this, p
    {
      && elements <= p.Length
      && slot.Keys == contents.Keys
      && Placed(p[..], elements, slot, contents)
    }

    ghost predicate Sound()
      reads this, p
    {
      && Shaped()
      && Ordered(p[..], elements)
    }

    /** Heap order holds and every stored object knows its own index. */
    ghost predicate Valid()
      reads this, p, cells
    {
      && Sound() && slot.Keys == contents.Keys
      && Tracked(slot, cells.pos, {})
    }

    /** The element count says whether the heap is empty. */
    lemma Emptiness()
      requires Valid()
      ensures elements == 0 <==> contents == map[]
    {
      if elements > 0 {
        PlacedAt(p[..], elements, slot, contents, 0);
      } else {
        assert contents.Keys == {};
      }
    }

    constructor (size: nat, cells: Offsets)
      ensures Valid() && fresh(p) && this.cells == cells
      ensures contents == map[] && elements == 0
    {
      this.cells := cells;
      p := new Entry[RoundUp(size)](_ => Entry(0, 0));
      elements := 0;
      slot, contents := map[], map[];
    }

    method Resize(newSize: nat)
      requires elements <= p.Length
      modifies this`p
      ensures p == old(p) || fresh(p)
      ensures p.Length >= newSize && p.Length >= old(p.Length)
      ensures p[..old(p.Length)] == old(p[..])
    {
      if p.Length >= newSize { return; }
      var size := RoundUp(newSize);
      var q := new Entry[size](_ => Entry(0, 0));
      var i := 0;
      while i < p.Length
        invariant 0 <= i <= p.Length < q.Length
        invariant p == old(p) && p[..] == old(p[..])
        invariant q[..i] == p[..i]
      {
        q[i] := p[i];
        i := i + 1;
      }
      p := q;
    }

    method SetOffset(i: nat)
      requires i < elements <= p.Length
      modifies cells
      ensures cells.pos == old(cells.pos)[p[i].obj := i]
    {
      cells.pos := cells.pos[p[i].obj := i];
    }

    /** HEAP_SWAP of `son` with its father, then SET_OFFSET(son). */
    method SwapUp(son: nat, ghost n: nat, ghost unknown: set<nat>)
      requires Shaped() && 0 < son < n <= elements
      requires Bubbling(p[..], n, son) && p[son].key <= p[Father(son)].key
      requires Tracked(slot, cells.pos, unknown) && p[son].obj in unknown
      modifies `slot, p, cells
      ensures Shaped() && Bubbling(p[..], n, Father(son)) && p[n..] == old(p[n..])
      ensures p[Father(son)] == old(p[son])
      ensures Tracked(slot, cells.pos, unknown)
      ensures SameOutside(old(cells.pos), cells.pos, contents.Keys)
    {
      hide OrderedBut, Bubbling, Placed, Swapped;
      var father := Father(son);
      BubbleStep(p[..], n, son);
      SwapPlaces(p[..], elements, slot, contents, son, father);
      SwapTracks(p[..], elements, slot, contents, son, father, cells.pos, unknown);
      SwappedParts(p[..], son, father, n);
      assert p[n..] == p[..][n..];
      slot := slot[p[father].obj := son][p[son].obj := father];
      Exchange(son, father);
      assert p[n..] == p[..][n..];
      SetOffset(son);
    }

    /** HEAP_SWAP */
    method Exchange(son: nat, father: nat)
      requires father < son < p.Length
      modifies p
      ensures p[..] == Swapped(old(p[..]), son, father)
    {
      p[son], p[father] := p[father], p[son];
    }

    /** heap_insert with a NULL object: bubble entry `start` up. `n` is the prefix that is a heap
        but for `start`, whose children lie outside it; back-pointers outside `unknown` are right. */
    method BubbleUp(start: nat, ghost n: nat, ghost unknown: set<nat>)
      requires Shaped() && start < n <= elements
      requires OrderedBut(p[..], n, start) && n <= Left(start)
      requires Tracked(slot, cells.pos, unknown)
      modifies `slot, p, cells
      ensures Shaped() && Ordered(p[..], n)
      ensures p[n..] == old(p[n..])
      ensures Tracked(slot, cells.pos, unknown - {old(p[start].obj)})
      ensures SameOutside(old(cells.pos), cells.pos, contents.Keys)
    {
      hide OrderedBut, Bubbling, Swapped, Placed;
      BubbleStart(p[..], n, start);
      var son: nat := start;
      ghost var mover := p[start].obj;
      while son > 0
        invariant elements <= p.Length && son <= start && p[son].obj == mover
        invariant Shaped() && Bubbling(p[..], n, son)
        invariant p[n..] == old(p[n..])
        invariant Tracked(slot, cells.pos, unknown + {mover})
        invariant SameOutside(old(cells.pos), cells.pos, contents.Keys)
      {
        var father := Father(son);
        if p[father].key < p[son].key {
          break;
        }
        SwapUp(son, n, unknown + {mover});
        son := father;
      }
      BubbleDone(p[..], n, son);
      PlacedAt(p[..], elements, slot, contents, son);
      SetOffset(son);
    }

    /** Move entry `child` into the hole above it. */
    method ChildUp(father: nat, child: nat)
      requires father < child < elements <= p.Length && Father(child) == father
      requires HolePlaced(p[..], elements, slot, contents, father) && HoleOrdered(p[..], elements, father)
      requires child == Left(father) && child + 1 < elements ==> p[child].key <= p[child + 1].key
      requires child != Left(father) ==> p[child].key <= p[child - 1].key
      requires Tracked(slot, cells.pos, {})
      modifies `slot, p, cells
      ensures HolePlaced(p[..], elements, slot, contents, child) && HoleOrdered(p[..], elements, child)
      ensures Tracked(slot, cells.pos, {})
      ensures SameOutside(old(cells.pos), cells.pos, contents.Keys)
    {
      hide HolePlaced, HoleOrdered, Above;
      ghost var s := p[..];
      HoleStep(s, elements, father, child);
      HoleMoves(s, elements, slot, contents, father, child);
      slot := slot[p[child].obj := father];
      p[father] := p[child];
      assert p[..] == s[father := s[child]];
      SetOffset(father);
    }

    /** The loop of heap_extract that moves the vacancy left by entry `start` to a leaf. */
    method SinkHole(start: nat) returns (father: nat)
      requires Shaped() && start < elements && Ordered(p[..], elements)
      requires Tracked(slot, cells.pos, {p[start].obj})
      modifies `slot, `contents, p, cells
      ensures contents == old(contents) - {old(p[start].obj)}
      ensures father < elements <= Left(father)
      ensures HolePlaced(p[..], elements, slot, contents, father) && HoleOrdered(p[..], elements, father)
      ensures Tracked(slot, cells.pos, {})
      ensures SameOutside(old(cells.pos), cells.pos, contents.Keys)
    {
      hide OrderedBut, Placed, HolePlaced, HoleOrdered;
      father := start;
      ghost var gone := p[start].obj;
      HoleStart(p[..], elements, slot, contents, father);
      contents := contents - {p[father].obj};
      slot := slot - {p[father].obj};
      assert contents == old(contents) - {gone};
      while Left(father) < elements
        invariant father < elements <= p.Length && contents == old(contents) - {gone}
        invariant HolePlaced(p[..], elements, slot, contents, father) && HoleOrdered(p[..], elements, father)
        invariant Tracked(slot, cells.pos, {})
        invariant SameOutside(old(cells.pos), cells.pos, contents.Keys)
        decreases elements - father
      {
        var child: nat := Left(father);
        if child != elements - 1 && p[child + 1].key < p[child].key {
          child := child + 1;
        }
        ChildUp(father, child);
        father := child;
      }
    }

    /** heap_insert with an object. */
    method Insert(key: int, obj: nat)
      requires Valid() && obj !in contents
      modifies this, p, cells
      ensures Valid() && (p == old(p) || fresh(p))
      ensures contents == old(contents)[obj := key] && elements == old(elements) + 1
      ensures SameOutside(old(cells.pos), cells.pos, contents.Keys)
    {
      hide OrderedBut, Placed, Above;
      if elements == p.Length {
        Resize(elements + 16);
      }
      assert p[..elements] == old(p[..])[..elements];
      InsertPlaces(old(p[..]), p[..], elements, slot, contents, Entry(key, obj));
      p[elements] := Entry(key, obj);
      slot, contents := slot[obj := elements], contents[obj := key];
      elements := elements + 1;
      PlacedAt(p[..], elements, slot, contents, elements - 1);
      BubbleUp(elements - 1, elements, {obj});
    }

    /** The end of heap_extract: the last entry fills the hole, which has become a leaf. */
    method FillHole(father: nat)
      requires father < elements <= p.Length && elements <= Left(father)
      requires HolePlaced(p[..], elements, slot, contents, father) && HoleOrdered(p[..], elements, father)
      requires Tracked(slot, cells.pos, {})
      modifies `elements, `slot, p, cells
      ensures Valid() && elements == old(elements) - 1
      ensures SameOutside(old(cells.pos), cells.pos, contents.Keys)
    {
      hide OrderedBut, Placed, HolePlaced, HoleOrdered, Above;
      var max: nat := elements - 1;
      elements := max;
      if father == max {
        HoleAtEnd(p[..], max, slot, contents);
      } else {
        ghost var s := p[..];
        HoleFilled(s, max, slot, contents, father);
        HoleFilledOrder(s, max, father);
        slot := slot[p[max].obj := father];
        p[father] := p[max];
        assert p[..] == s[father := s[max]];
        BubbleUp(father, max, {p[father].obj});
      }
    }

    /** HEAP_TOP: no stored key is smaller. */
    function Top(): (e: Entry)
      requires Valid() && elements > 0
      reads this, p, cells
      ensures e.obj in contents && contents[e.obj] == e.key
      ensures forall o :: o in contents ==> e.key <= contents[o]
    {
      assert forall o :: o in contents ==> p[0].key <= contents[o] by {
        forall o | o in contents ensures p[0].key <= contents[o] {
          TopIsMinimal(p[..], elements, slot[o]);
        }
      }
      p[0]
    }

    /** heap_extract: remove the top, or `which` if given. The caller passes only stored objects. */
    method Extract(which: Option<nat>)
      requires Valid()
      requires which.Some? ==> which.value in contents
      modifies `elements, `slot, `contents, p, cells
      ensures Valid()
      ensures old(elements) == 0 ==> contents == old(contents) && elements == 0
      ensures old(elements) > 0 ==>
                var gone := if which.Some? then which.value else old(Top().obj);
                && gone in old(contents) && contents == old(contents) - {gone}
                && elements == old(elements) - 1 && gone in cells.pos && cells.pos[gone] == RESET
      ensures SameOutside(old(cells.pos), cells.pos, old(contents).Keys)
    {
      hide OrderedBut, Placed, HolePlaced, HoleOrdered, Above;
      if elements == 0 { return; }
      var father: nat := 0;
      if which.Some? {
        PlacedObj(p[..], elements, slot, contents, which.value);
        father := cells.pos[which.value];
      }
      PlacedAt(p[..], elements, slot, contents, father);
      cells.pos := cells.pos[p[father].obj := RESET];
      father := SinkHole(father);
      FillHole(father);
    }

    /** heapify(): rebuild order and back-pointers after entries were overwritten. */
    method Heapify()
      requires Shaped()
      modifies `slot, p, cells
      ensures Valid()
      ensures SameOutside(old(cells.pos), cells.pos, contents.Keys)
    {
      hide OrderedBut, Above, Placed;
      var i := 0;
      NothingToOrder(p[..]);
      ObjsAll(p[..], elements, slot, contents);
      assert Tracked(slot, cells.pos, Objs(p[0..elements]));
      while i < elements
        invariant 0 <= i <= elements <= p.Length
        invariant Shaped() && Ordered(p[..], i)
        invariant Tracked(slot, cells.pos, Objs(p[i..elements]))
        invariant SameOutside(old(cells.pos), cells.pos, contents.Keys)
      {
        ExtendOrder(p[..], i);
        ghost var s := p[..];
        BubbleUp(i, i + 1, Objs(p[i..elements]));
        ObjsTail(s, p[..], i, elements);
        i := i + 1;
      }
    }

    /** The deletion inside heap_scan: the last entry overwrites entry `i`. */
    method Drop(i: nat)
      requires Shaped() && i < elements
      modifies `elements, `slot, `contents, p
      ensures Shaped() && elements == old(elements) - 1
      ensures contents == old(contents) - {old(p[i].obj)}
      ensures p[..] == old(p[..])[i := old(p[elements - 1])]
    {
      ghost var s := p[..];
      DropPlaces(s, elements, slot, contents, i);
      slot, contents := DropSlot(s, elements, slot, i), contents - {s[i].obj};
      elements := elements - 1;
      p[i] := p[elements];
      assert p[..] == s[i := s[elements]];
    }

    /** heap_scan: offer every entry to `fn`, drop those it wants deleted, stop when it says so.
        `seen` collects the objects `fn` was called on. */
    method Scan(fn: nat -> ScanReply) returns (found: nat, ghost seen: set<nat>)
      requires Valid()
      modifies `elements, `slot, `contents, p, cells
      ensures Valid()
      ensures seen <= old(contents).Keys && contents == old(contents) - Doomed(seen, fn)
      ensures found == |Doomed(seen, fn)| && elements == old(elements) - found
      ensures seen == old(contents).Keys || exists o :: o in seen && fn(o).end
      ensures forall a, b :: a in seen && b in seen && fn(a).end && fn(b).end ==> a == b
      ensures SameOutside(old(cells.pos), cells.pos, old(contents).Keys)
    {
      hide OrderedBut, Above, Placed, Scanned, Doomed, Stopping, Tracked;
      ScanStart(p[..], elements, contents, fn);
      found, seen := 0, {};
      var i := 0;
      var ended := false;
      while i < elements && !ended
        invariant 0 <= i <= elements <= old(elements) && elements <= p.Length
        invariant Shaped() && (found == 0 ==> Valid())
        invariant Scanned(p[..], elements, i, seen, contents, old(contents), fn)
        invariant found == |Doomed(seen, fn)| && elements == old(elements) - found
        invariant Stopping(seen, fn, ended)
        invariant cells.pos == old(cells.pos)
        decreases elements - i, !ended
      {
        var o := p[i].obj;
        var reply := fn(o);
        ScanStep(p[..], elements, slot, contents, i, seen, old(contents), fn);
        if reply.del {
          Drop(i);
          found := found + 1;
        } else {
          i := i + 1;
        }
        seen := seen + {o};
        ended := reply.end;
      }
      ScanDone(p[..], elements, slot, i, seen, contents, old(contents), fn);
      StopDone(seen, fn, ended);
      if found > 0 {
        Heapify();
      }
    }
  }
}
