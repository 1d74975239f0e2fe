/** The lookup table of sys/netinet/ipfw/ip_fw_lookup.c: slots with identifiers that are raised each
  time a slot is freed, and a list of the free slots. Identifiers are unbounded. */
module Lut {
  import opened Basics

  /** What a slot points to: nothing, the next free slot, or an object. */
  datatype Ptr = Null | Link(next: nat) | Obj(d: nat)

  /** struct entry */
  datatype Entry = Entry(id: nat, ptr: Ptr)

  // ---------------------------------------------------------------- the free list

  /** `fl` lists the free slots, each of which points to the next one. */
  ghost predicate FreeList(s: seq<Entry>, fl: seq<nat>)
  {
    && Distinct(fl)
    && (forall k :: 0 <= k < |fl| ==> fl[k] < |s|)
    && (forall k :: 0 <= k < |fl| - 1 ==> s[fl[k]].ptr == Link(fl[k + 1]))
    && (fl != [] ==> s[fl[|fl| - 1]].ptr == Null)
    && (forall i :: 0 <= i < |s| ==> (i in fl <==> !s[i].ptr.Obj?))
  }

  /** The identifiers belong to their slots; the stored objects are those of `live`; and every identifier
      that has been issued is at most that of its slot, or less if the slot is free. */
  ghost predicate Content(s: seq<Entry>, m: nat, live: map<nat, nat>, issued: set<nat>)
  {
    && m > 0 && |s| <= m
    && (forall i :: 0 <= i < |s| ==> s[i].id % m == i)
    && (forall i :: 0 <= i < |s| && s[i].ptr.Obj? ==> s[i].id in live && live[s[i].id] == s[i].ptr.d)
    && (forall id :: id in live ==> id % m < |s| && s[id % m] == Entry(id, Obj(live[id])))
    && live.Keys <= issued
    && (forall id :: id in issued ==> id % m < |s| && id <= s[id % m].id && (id in live || id < s[id % m].id))
  }

  /** An identifier that a free slot will give out next. */
  ghost predicate Pending(s: seq<Entry>, m: nat, id: nat)
    requires m > 0
  {
    id % m < |s| && s[id % m].id == id && !s[id % m].ptr.Obj?
  }

  /** Identifiers that have been given out are not pending. */
  lemma IssuedNotPending(s: seq<Entry>, m: nat, live: map<nat, nat>, issued: set<nat>, id: nat)
    requires Content(s, m, live, issued) && id in issued
    ensures !Pending(s, m, id)
  {
  }

  lemma PendingIsNew(s: seq<Entry>, m: nat, live: map<nat, nat>, issued: set<nat>, i: nat)
    requires Content(s, m, live, issued) && i < |s| && !s[i].ptr.Obj?
    ensures s[i].id !in issued && s[i].id !in live
  {
  }

  /** The first free slot gets an object. */
  lemma InsertContent(s: seq<Entry>, m: nat, live: map<nat, nat>, issued: set<nat>, i: nat, d: nat)
    requires Content(s, m, live, issued) && i < |s| && !s[i].ptr.Obj?
    ensures Content(s[i := Entry(s[i].id, Obj(d))], m, live[s[i].id := d], issued + {s[i].id})
  {
    PendingIsNew(s, m, live, issued, i);
    var t, e := s[i := Entry(s[i].id, Obj(d))], s[i].id;
    forall id | id in issued + {e}
      ensures id % m < |t| && id <= t[id % m].id && (id in live[e := d] || id < t[id % m].id)
    {
    }
  }

  lemma InsertFree(s: seq<Entry>, fl: seq<nat>, d: nat)
    requires FreeList(s, fl) && fl != []
    ensures FreeList(s[fl[0] := Entry(s[fl[0]].id, Obj(d))], fl[1..])
  {
    var t := s[fl[0] := Entry(s[fl[0]].id, Obj(d))];
    forall i | 0 <= i < |t|
      ensures i in fl[1..] <==> !t[i].ptr.Obj?
    {
      assert fl == [fl[0]] + fl[1..];
      assert fl[0] !in fl[1..];
    }
  }

  lemma NextId(id: nat, m: nat)
    requires m > 0
    ensures (id + m) % m == id % m
  {
    assert (id + m) % m == id % m by {
      var q := id / m;
      assert id == q * m + id % m;
      assert id + m == (q + 1) * m + id % m;
      ModIs(id + m, m, q + 1, id % m);
    }
  }

  lemma ModIs(x: nat, m: nat, q: nat, r: nat)
    requires m > 0 && x == q * m + r && r < m
    ensures x % m == r
  {
    DivUnique(x, m, q);
  }

  /** A slot loses its object and gets the next identifier. */
  lemma DeleteContent(s: seq<Entry>, m: nat, live: map<nat, nat>, issued: set<nat>, id: nat, ptr: Ptr)
    requires Content(s, m, live, issued) && id in live && !ptr.Obj?
    ensures Content(s[id % m := Entry(id + m, ptr)], m, live - {id}, issued)
  {
    NextId(id, m);
    var t := s[id % m := Entry(id + m, ptr)];
    forall i | 0 <= i < |t| && t[i].ptr.Obj?
      ensures t[i].id in live - {id} && (live - {id})[t[i].id] == t[i].ptr.d
    {
      assert s[i].id != id;
    }
  }

  /** A change of a link. */
  lemma RelinkContent(s: seq<Entry>, m: nat, live: map<nat, nat>, issued: set<nat>, i: nat, ptr: Ptr)
    requires Content(s, m, live, issued) && i < |s| && !s[i].ptr.Obj? && !ptr.Obj?
    ensures Content(s[i := Entry(s[i].id, ptr)], m, live, issued)
  {
  }

  lemma DeleteFree(s: seq<Entry>, fl: seq<nat>, i: nat, id: nat)
    requires FreeList(s, fl) && i < |s| && s[i].ptr.Obj?
    ensures var t := s[i := Entry(id, Null)];
            FreeList(if fl == [] then t else t[fl[|fl| - 1] := Entry(t[fl[|fl| - 1]].id, Link(i))], fl + [i])
  {
  }

  /** All slots hold objects exactly when no slot is free. */
  lemma FullIff(s: seq<Entry>, fl: seq<nat>)
    requires FreeList(s, fl)
    ensures fl == [] <==> forall i :: 0 <= i < |s| ==> s[i].ptr.Obj?
  {
    if fl != [] {
      assert fl[0] in fl;
    }
  }

  // ---------------------------------------------------------------- (re)building the table

  /** The doubling loop of ipfw_lut_init: the least power of two that is not below `n`. */
  method RoundUp(n: nat) returns (i: nat, ghost k: nat)
    requires n > 0
    ensures i == Pow2(k) && n <= i && (k == 0 || Pow2(k - 1) < n)
  {
    i, k := 1, 0;
    while i < n
      invariant i == Pow2(k) && (k == 0 || Pow2(k - 1) < n)
    {
      i, k := i + i, k + 1;
    }
  }

  /** The free slots before `n` are listed; from there on the slots are still blank. */
  ghost predicate Listed(t: seq<Entry>, fl: seq<nat>, n: nat)
  {
    && n <= |t| && Distinct(fl)
    && (forall k :: 0 <= k < |fl| ==> fl[k] < n)
    && (forall k :: 0 <= k < |fl| - 1 ==> t[fl[k]].ptr == Link(fl[k + 1]))
    && (fl != [] ==> t[fl[|fl| - 1]].ptr == Null)
    && (forall i :: 0 <= i < n ==> (i in fl <==> !t[i].ptr.Obj?))
    && (forall i :: n <= i < |t| ==> t[i].ptr == Null)
  }

  lemma ListObject(t: seq<Entry>, fl: seq<nat>, n: nat, id: nat, ptr: Ptr)
    requires Listed(t, fl, n) && n < |t| && ptr.Obj?
    ensures Listed(t[n := Entry(id, ptr)], fl, n + 1)
  {
    var t' := t[n := Entry(id, ptr)];
    assert n !in fl;
    assert forall i :: 0 <= i < n ==> t'[i] == t[i];
  }

  lemma ListFree(t: seq<Entry>, fl: seq<nat>, n: nat, id: nat)
    requires Listed(t, fl, n) && n < |t|
    ensures var t1 := t[n := Entry(id, Null)];
            Listed(if fl == [] then t1 else t1[fl[|fl| - 1] := Entry(t1[fl[|fl| - 1]].id, Link(n))], fl + [n], n + 1)
  {
    var t1 := t[n := Entry(id, Null)];
    var u := if fl == [] then t1 else t1[fl[|fl| - 1] := Entry(t1[fl[|fl| - 1]].id, Link(n))];
    forall i | 0 <= i < n + 1
      ensures i in fl + [n] <==> !u[i].ptr.Obj?
    {
      assert fl != [] ==> fl[|fl| - 1] in fl;
    }
  }

  /** The slots of the table before it is remapped; a slot it does not have counts as blank. */
  ghost predicate Copied(s: seq<Entry>, t: seq<Entry>, n: nat)
  {
    n <= |t| && forall i :: 0 <= i < n ==>
      && t[i].id == (if i < |s| then s[i].id else i)
      && (if i < |s| && s[i].ptr.Obj? then t[i].ptr == s[i].ptr else !t[i].ptr.Obj?)
  }

  /** A larger table holds the same objects under the same identifiers. */
  lemma GrownContent(s: seq<Entry>, t: seq<Entry>, m: nat, live: map<nat, nat>, issued: set<nat>)
    requires Content(s, m, live, issued) && Copied(s, t, |t|) && |s| <= |t| <= m
    ensures Content(t, m, live, issued)
  {
    forall i | 0 <= i < |t|
      ensures t[i].id % m == i
    {
      if i >= |s| {
        ModIs(i, m, 0, i);
      }
    }
    forall id | id in live
      ensures id % m < |t| && t[id % m] == Entry(id, Obj(live[id]))
    {
    }
  }

  lemma NewContent(t: seq<Entry>, m: nat)
    requires Copied([], t, |t|) && |t| <= m && m > 0
    ensures Content(t, m, map[], {})
  {
    forall i | 0 <= i < |t|
      ensures t[i].id % m == i
    {
      ModIs(i, m, 0, i);
    }
  }

  lemma ListedAll(t: seq<Entry>, fl: seq<nat>)
    requires Listed(t, fl, |t|)
    ensures FreeList(t, fl)
  {
  }

  /** The loop of ipfw_lut_init that remaps the entries and rebuilds the free list. */
  method Remap(s: array<Entry>, newSize: nat) returns (t: array<Entry>, head: Ptr, tail: nat, ghost fl: seq<nat>)
    ensures fresh(t) && t.Length == newSize && Copied(s[..], t[..], newSize) && FreeList(t[..], fl)
    ensures head == (if fl == [] then Null else Link(fl[0])) && (fl != [] ==> tail == fl[|fl| - 1])
  {
    hide Listed, FreeList;
    t := new Entry[newSize](_ => Entry(0, Null));
    head, tail, fl := Null, 0, [];
    var i := 0;
    ListedNone(t[..]);
    while i < newSize
      invariant i <= newSize && Copied(s[..], t[..], i) && Listed(t[..], fl, i)
      invariant head == (if fl == [] then Null else Link(fl[0])) && (fl != [] ==> tail == fl[|fl| - 1])
    {
      var id := if i >= s.Length then i else s[i].id;
      if i < s.Length && s[i].ptr.Obj? {
        ListObject(t[..], fl, i, id, s[i].ptr);
        t[i] := Entry(id, s[i].ptr);
      } else {
        ghost var was := t[..];
        ListFree(was, fl, i, id);
        t[i] := Entry(id, Null);
        if head == Null {
          head := Link(i);
        } else {
          ListedBefore(was, fl, i);
          t[tail] := Entry(t[tail].id, Link(i));
        }
        tail := i;
        fl := fl + [i];
      }
      i := i + 1;
    }
    ListedAll(t[..], fl);
  }

  lemma ListedBefore(t: seq<Entry>, fl: seq<nat>, n: nat)
    requires Listed(t, fl, n) && fl != []
    ensures fl[|fl| - 1] < n && !t[fl[|fl| - 1]].ptr.Obj?
  {
  }

  lemma ListedNone(t: seq<Entry>)
    requires forall i :: 0 <= i < |t| ==> t[i].ptr == Null
    ensures Listed(t, [], 0)
  {
  }

  /** A new table answers a question about the identifier of its first slot, which nobody has been
      given, with a pointer into itself. */
  lemma StrayAnswer()
    ensures var s := [Entry(0, Link(1)), Entry(1, Null)];
            Content(s, 2, map[], {}) && FreeList(s, [0, 1]) && Pending(s, 2, 0) && s[0 % 2].ptr != Null
  {
  }

  class Table {
    var s: array<Entry>
    var size: nat
    var used: nat
    /** One more than the mask, a power of two. */
    const m: nat
    var head: Ptr
    var tail: nat
    ghost var fl: seq<nat>
    ghost var live: map<nat, nat>
    ghost var issued: set<nat>

    ghost predicate Valid()
      reads this, s
    {
      && size == s.Length && used == |live|
      && Content(s[..], m, live, issued) && FreeList(s[..], fl)
      && head == (if fl == [] then Null else Link(fl[0])) && (fl != [] ==> tail == fl[|fl| - 1])
    }

    /** ipfw_lut_insert; -1 is the C result for a full table. */
    method Insert(d: nat) returns (id: int)
      requires Valid()
      modifies this`head, this`used, this`fl, this`live, this`issued, s
      ensures Valid()
      ensures id == -1 <==> forall i :: 0 <= i < old(size) ==> old(s[..])[i].ptr.Obj?
      ensures id == -1 ==> live == old(live) && issued == old(issued)
      ensures id != -1 ==> id >= 0 && id !in old(issued) && live == old(live)[id := d] && issued == old(issued) + {id}
    {
      hide Content, FreeList;
      FullIff(s[..], fl);
      if head == Null {
        return -1;
      }
      var i := head.next;
      FirstFree(s[..], fl);
      PendingIsNew(s[..], m, live, issued, i);
      InsertContent(s[..], m, live, issued, i, d);
      InsertFree(s[..], fl, d);
      head := s[i].ptr;
      id := s[i].id;
      s[i] := Entry(s[i].id, Obj(d));
      used := used + 1;
      fl, live, issued := fl[1..], live[id := d], issued + {id};
    }

    lemma FirstFree(s: seq<Entry>, fl: seq<nat>)
      requires FreeList(s, fl) && fl != []
      ensures fl[0] < |s| && !s[fl[0]].ptr.Obj? && s[fl[0]].ptr == if |fl| > 1 then Link(fl[1]) else Null
    {
      assert fl[0] in fl;
    }

    /** ipfw_lut_lookup, with all that it may return: for an identifier that is not live the answer is
        NULL unless it is the pending one of a free slot that has a successor. */
    method Lookup(id: nat) returns (r: Ptr)
      requires Valid()
      ensures id in live ==> r == Obj(live[id])
      ensures id !in live ==> (r == Null <==> !(Pending(s[..], m, id) && s[id % m].ptr != Null))
      ensures id in issued && id !in live ==> r == Null
    {
      hide FreeList;
      var i := id % m;
      if i >= size {
        return Null;
      }
      var e := s[i];
      if id in issued {
        IssuedNotPending(s[..], m, live, issued, id);
      }
      r := if e.id == id then e.ptr else Null;
    }

    /** ipfw_lut_delete, of an identifier that is not pending, as none that has been issued is. */
    method Delete(id: nat) returns (r: Ptr)
      requires Valid() && !Pending(s[..], m, id)
      modifies this`head, this`tail, this`used, this`fl, this`live, s
      ensures Valid() && issued == old(issued)
      ensures r == if id in old(live) then Obj(old(live)[id]) else Null
      ensures live == old(live) - {id}
    {
      hide FreeList;
      var i := id % m;
      if i >= size {
        return Null;
      }
      if s[i].id != id {
        return Null;
      }
      r := s[i].ptr;
      Remove(id, i);
    }

    /** The end of ipfw_lut_delete: the slot joins the free list. */
    method Remove(id: nat, i: nat)
      requires Valid() && id in live && i == id % m && i < s.Length
      modifies this`head, this`tail, this`used, this`fl, this`live, s
      ensures Valid() && issued == old(issued) && live == old(live) - {id}
    {
      hide Content, FreeList;
      SlotOf(s[..], m, live, issued, id);
      DeleteFree(s[..], fl, i, s[i].id + m);
      DeleteContent(s[..], m, live, issued, id, Null);
      s[i] := Entry(s[i].id + m, Null);
      ghost var t := s[..];
      if head == Null {
        head := Link(i);
      } else {
        LastFree(old(s[..]), t, fl, i);
        RelinkContent(t, m, live - {id}, issued, tail, Link(i));
        s[tail] := Entry(s[tail].id, Link(i));
      }
      tail := i;
      used := used - 1;
      fl, live := fl + [i], live - {id};
    }

    lemma SlotOf(s: seq<Entry>, m: nat, live: map<nat, nat>, issued: set<nat>, id: nat)
      requires Content(s, m, live, issued) && id in live
      ensures m > 0 && id % m < |s| && s[id % m] == Entry(id, Obj(live[id]))
    {
    }

    lemma LastFree(s: seq<Entry>, t: seq<Entry>, fl: seq<nat>, i: nat)
      requires FreeList(s, fl) && fl != [] && i < |s| == |t| && s[i].ptr.Obj? && t == s[i := t[i]]
      ensures var k := fl[|fl| - 1]; k < |t| && k != i && !t[k].ptr.Obj?
    {
      assert fl[|fl| - 1] in fl;
    }

    /** ipfw_lut_init of a new table. */
    constructor (newSize: nat, mask: nat)
      requires newSize > 0
      ensures Valid() && live == map[] && issued == {} && size == newSize && fresh(s)
      ensures m >= newSize && m >= mask && exists k :: m == Pow2(k)
    {
      var n := if newSize >= mask then newSize else mask;
      var i;
      ghost var k;
      i, k := RoundUp(n);
      m := i;
      used, live, issued, size := 0, map[], {}, newSize;
      var none := new Entry[0];
      var t, h, e;
      ghost var q;
      t, h, e, q := Remap(none, newSize);
      s, head, tail, fl := t, h, e, q;
      new;
      assert none[..] == [];
      NewContent(s[..], m);
    }

    /** ipfw_lut_init of a table that exists. */
    method Grow(newSize: nat) returns (ok: bool)
      requires Valid()
      modifies this`s, this`size, this`head, this`tail, this`fl
      ensures Valid() && live == old(live) && issued == old(issued)
      ensures ok == (newSize <= old(size) || newSize < m)
      ensures if ok && newSize > old(size) then size == newSize && fresh(s) else s == old(s)
    {
      hide Content, FreeList, Copied;
      if newSize <= size {
        return true;
      }
      if newSize >= m {
        return false;
      }
      var t, h, e;
      ghost var q;
      t, h, e, q := Remap(s, newSize);
      Replace(t, h, e, q);
      ok := true;
    }

    /** The end of ipfw_lut_init: the new slots and their free list take the place of the old ones. */
    method Replace(t: array<Entry>, h: Ptr, e: nat, ghost q: seq<nat>)
      requires Valid() && size < t.Length < m && Copied(s[..], t[..], t.Length) && FreeList(t[..], q)
      requires h == (if q == [] then Null else Link(q[0])) && (q != [] ==> e == q[|q| - 1])
      modifies this`s, this`size, this`head, this`tail, this`fl
      ensures Valid() && s == t && size == t.Length
    {
      hide Content, FreeList, Copied;
      GrownContent(s[..], t[..], m, live, issued);
      head, tail, s, size, fl := h, e, t, t.Length, q;
    }
  }
}
