/** The operations of sys/netinet/ipfw/ip_fw_dynamic.c on the table of dynamic rules. Times are
  unbounded, so TIME_LEQ is the order of the integers. */
module DynRules {
  import opened Basics
  import opened PacketQueue
  import opened Bits
  import opened DynTable

  const IPPROTO_TCP := 6
  const IPPROTO_UDP := 17
  const TH_FIN: bv16 := 1
  const TH_SYN: bv16 := 2
  const TH_RST: bv16 := 4

  /** The tunable lifetimes. */
  datatype Config = Config(syn: int, ack: int, fin: int, rst: int, udp: int, short: int, keepalive: int)

  datatype Direction = NoMatch | MatchForward | MatchReverse

  /** _SEQ_GE on 32-bit sequence numbers. */
  predicate SeqGe(a: nat, b: nat)
  {
    (a - b) % 0x1_0000_0000 < 0x8000_0000
  }

  function Clamp(life: int, keepalive: int): int
  {
    if life >= keepalive then keepalive - 1 else life
  }

  /** The flags of both directions a session has seen. */
  function Seen(e: Entry, pkt: FlowId, dir: Direction): bv16
  {
    var flags := pkt.flags & (TH_FIN | TH_SYN | TH_RST);
    e.state | (if dir == MatchForward then flags else flags << 8)
  }

  /** What a packet makes of the session it matches, and of the lifetimes that must stay below the
      keepalive period. `ack` is the acknowledgement number, if there is a TCP header. */
  function Refresh(cfg: Config, now: int, e: Entry, pkt: FlowId, dir: Direction, ack: Option<nat>): (Entry, Config)
  {
    if pkt.proto == IPPROTO_TCP then
      var bothSyn := TH_SYN | (TH_SYN << 8);
      var bothFin := TH_FIN | (TH_FIN << 8);
      var t := e.(state := Seen(e, pkt, dir));
      if t.state == TH_SYN then (t.(expire := now + cfg.syn), cfg)
      else if t.state == bothSyn || t.state == bothSyn | TH_FIN || t.state == bothSyn | (TH_FIN << 8) then
        if ack == None then (t.(expire := now + cfg.ack), cfg)
        else if dir == MatchForward then
          if t.ackFwd == 0 || SeqGe(ack.value, t.ackFwd) then (t.(ackFwd := ack.value, expire := now + cfg.ack), cfg) else (t, cfg)
        else if t.ackRev == 0 || SeqGe(ack.value, t.ackRev) then (t.(ackRev := ack.value, expire := now + cfg.ack), cfg)
        else (t, cfg)
      else if t.state == bothSyn | bothFin then
        (t.(expire := now + Clamp(cfg.fin, cfg.keepalive)), cfg.(fin := Clamp(cfg.fin, cfg.keepalive)))
      else
        (t.(expire := now + Clamp(cfg.rst, cfg.keepalive)), cfg.(rst := Clamp(cfg.rst, cfg.keepalive)))
    else if pkt.proto == IPPROTO_UDP then (e.(expire := now + cfg.udp), cfg)
    else (e.(expire := now + cfg.short), cfg)
  }

  // ---------------------------------------------------------------- what a packet does to a session

  /** The flags that one side has sent. */
  datatype Flags = Flags(syn: bool, fin: bool, rst: bool)

  function FlagsOf(x: bv16): Flags
  {
    Flags(x & 2 != 0, x & 1 != 0, x & 4 != 0)
  }

  /** What the side that made the session has sent, and what the other side has. */
  function Opener(e: Entry): Flags { FlagsOf(e.state) }

  function Other(e: Entry): Flags { FlagsOf(e.state >> 8) }

  function Also(a: Flags, b: Flags): Flags { Flags(a.syn || b.syn, a.fin || b.fin, a.rst || b.rst) }

  /** A packet adds its flags to those of its side. */
  lemma SeenIs(e: Entry, pkt: FlowId, dir: Direction)
    requires Clean(e.state)
    ensures var t := e.(state := Seen(e, pkt, dir));
            && Clean(t.state)
            && Opener(t) == (if dir == MatchForward then Also(Opener(e), FlagsOf(pkt.flags)) else Opener(e))
            && Other(t) == (if dir == MatchForward then Other(e) else Also(Other(e), FlagsOf(pkt.flags)))
  {
  }

  predicate Silent(a: Flags) { !a.syn && !a.fin && !a.rst }

  /** Both sides have opened, none has reset, and not both have closed. */
  predicate Established(a: Flags, b: Flags)
  {
    a.syn && b.syn && !a.rst && !b.rst && !(a.fin && b.fin)
  }

  /** The acknowledgement is not older than the last one of its side. */
  predicate InSequence(e: Entry, dir: Direction, ack: Option<nat>)
  {
    var last := if dir == MatchForward then e.ackFwd else e.ackRev;
    ack == None || last == 0 || SeqGe(ack.value, last)
  }

  /** 32-bit sequence numbers are compared by the shorter way round. */
  lemma SeqGeIs(a: nat, b: nat)
    requires a < 0x1_0000_0000 && b < 0x1_0000_0000
    ensures SeqGe(a, b) <==> b <= a < b + 0x8000_0000 || a + 0x8000_0000 < b
  {
  }

  /** A lifetime that must stay below the keepalive period. */
  predicate Shortened(life: int, keepalive: int, life': int)
  {
    life' <= life && life' < keepalive && (life < keepalive ==> life' == life) && (life >= keepalive ==> life' == keepalive - 1)
  }

  /** What a packet makes of its session, by the flags that each side has sent by then. */
  ghost predicate Refreshed(cfg: Config, now: int, e: Entry, pkt: FlowId, dir: Direction, ack: Option<nat>, f: Entry, c: Config)
  {
    var a, b := Opener(f), Other(f);
    if pkt.proto == IPPROTO_TCP then
      && a == (if dir == MatchForward then Also(Opener(e), FlagsOf(pkt.flags)) else Opener(e))
      && b == (if dir == MatchForward then Other(e) else Also(Other(e), FlagsOf(pkt.flags)))
      && if a == Flags(true, false, false) && Silent(b) then
           f == e.(state := f.state, expire := now + cfg.syn) && c == cfg
         else if Established(a, b) then
           && c == cfg
           && if !InSequence(e, dir, ack) then f == e.(state := f.state)
              else if ack == None then f == e.(state := f.state, expire := now + cfg.ack)
              else if dir == MatchForward then f == e.(state := f.state, expire := now + cfg.ack, ackFwd := ack.value)
              else f == e.(state := f.state, expire := now + cfg.ack, ackRev := ack.value)
         else if a == b == Flags(true, true, false) then
           f == e.(state := f.state, expire := now + c.fin) && Shortened(cfg.fin, cfg.keepalive, c.fin) && c == cfg.(fin := c.fin)
         else
           f == e.(state := f.state, expire := now + c.rst) && Shortened(cfg.rst, cfg.keepalive, c.rst) && c == cfg.(rst := c.rst)
    else if pkt.proto == IPPROTO_UDP then f == e.(expire := now + cfg.udp) && c == cfg
    else f == e.(expire := now + cfg.short) && c == cfg
  }

  lemma RefreshIs(cfg: Config, now: int, e: Entry, pkt: FlowId, dir: Direction, ack: Option<nat>)
    requires Clean(e.state)
    ensures var (f, c) := Refresh(cfg, now, e, pkt, dir, ack); Refreshed(cfg, now, e, pkt, dir, ack, f, c) && Clean(f.state)
  {
    hide SeqGe, Seen;
    SeenIs(e, pkt, dir);
    StateIs(Seen(e, pkt, dir));
  }

  /** What the cases of the switch on the state stand for. */
  lemma StateIs(state: bv16)
    requires Clean(state)
    ensures var a, b := FlagsOf(state), FlagsOf(state >> 8);
            var bothSyn := TH_SYN | (TH_SYN << 8);
            && (state == TH_SYN <==> a == Flags(true, false, false) && Silent(b))
            && (state == bothSyn || state == bothSyn | TH_FIN || state == bothSyn | (TH_FIN << 8) <==> Established(a, b))
            && (state == bothSyn | (TH_FIN | (TH_FIN << 8)) <==> a == b == Flags(true, true, false))
  {
  }

  /** A packet of a session: when it comes, and its acknowledgement. */
  datatype Arrival = Arrival(now: int, pkt: FlowId, dir: Direction, ack: Option<nat>)

  /** A session after some packets. */
  function Played(cfg: Config, e: Entry, packets: seq<Arrival>): (Entry, Config)
  {
    if packets == [] then (e, cfg) else
      var k := |packets| - 1;
      var (f, c) := Played(cfg, e, packets[..k]);
      var p := packets[k];
      Refresh(c, p.now, f, p.pkt, p.dir, p.ack)
  }

  /** A packet that neither resets the session nor closes its second side, in sequence. */
  predicate Ordinary(f: Entry, p: Arrival)
  {
    && p.pkt.proto == IPPROTO_TCP && InSequence(f, p.dir, p.ack)
    && Established(if p.dir == MatchForward then Also(Opener(f), FlagsOf(p.pkt.flags)) else Opener(f),
                   if p.dir == MatchForward then Other(f) else Also(Other(f), FlagsOf(p.pkt.flags)))
  }

  /** An established session whose ordinary packets are less than the acknowledgement lifetime apart has
      not expired when the next one comes. */
  lemma {:induction false} NeverExpires(cfg: Config, e: Entry, packets: seq<Arrival>, n: nat)
    requires Clean(e.state) && n <= |packets|
    requires forall k :: 0 <= k < |packets| ==> Ordinary(Played(cfg, e, packets[..k]).0, packets[k])
    requires packets != [] ==> packets[0].now < e.expire
    requires forall k :: 0 < k < |packets| ==> packets[k].now - packets[k - 1].now < cfg.ack
    ensures Played(cfg, e, packets[..n]).1 == cfg && Clean(Played(cfg, e, packets[..n]).0.state)
    ensures n < |packets| ==> Played(cfg, e, packets[..n]).0.expire > packets[n].now
    ensures n > 0 ==> Played(cfg, e, packets[..n]).0.expire == packets[n - 1].now + cfg.ack
  {
    hide Refresh, Refreshed, Ordinary;
    if n > 0 {
      var k := n - 1;
      NeverExpires(cfg, e, packets, k);
      assert packets[..n][..k] == packets[..k];
      var f, p := Played(cfg, e, packets[..k]).0, packets[k];
      RefreshIs(cfg, p.now, f, p.pkt, p.dir, p.ack);
      var (g, c) := Refresh(cfg, p.now, f, p.pkt, p.dir, p.ack);
      OrdinaryIs(cfg, f, p, g, c);
    }
  }

  lemma OrdinaryIs(cfg: Config, f: Entry, p: Arrival, g: Entry, c: Config)
    requires Ordinary(f, p) && Refreshed(cfg, p.now, f, p.pkt, p.dir, p.ack, g, c)
    ensures g.expire == p.now + cfg.ack && c == cfg
  {
  }

  predicate Reset(e: Entry)
  {
    e.state & (TH_RST | (TH_RST << 8)) != 0
  }

  /** Once a TCP session has seen a reset, from either side, no later packet gives it more than the
      short lifetime of a reset session. */
  lemma ResetIsFinal(cfg: Config, now: int, e: Entry, pkt: FlowId, dir: Direction, ack: Option<nat>)
    requires pkt.proto == IPPROTO_TCP && (Reset(e) || pkt.flags & TH_RST != 0)
    ensures var (t, cfg') := Refresh(cfg, now, e, pkt, dir, ack);
            Reset(t) && t.expire == now + cfg'.rst && cfg'.rst < cfg'.keepalive
  {
  }

  /** The entries that have gone had expired. */
  ghost predicate OnlyExpired(mem: Memory, m: Memory, now: int)
  {
    forall p :: p in mem && p !in m ==> mem[p].expire <= now
  }

  /** The entry is a session of the flow of the packet. */
  predicate Matches(e: Entry, pkt: FlowId)
  {
    e.kind != Parent && SameFlow(pkt, e.id)
  }

  /** A session of the flow that has not expired. */
  ghost predicate Alive(mem: Memory, pkt: FlowId, now: int, p: nat)
  {
    p in mem && Matches(mem[p], pkt) && mem[p].expire > now
  }

  /** Sessions of one flow are in one chain. */
  lemma MatchesInChain(mem: Memory, v: Chains, pkt: FlowId, p: nat)
    requires TableOk(mem, v) && p in mem && Matches(mem[p], pkt)
    ensures |v| > 0 && p in v[Hash(pkt, |v|)]
  {
    hide Hash;
    assert Hangs(mem, v, p);
    HashSymmetric(pkt, mem[p].id, |v|);
  }

  /** Each parent's count is within the limit of its rule, and the flags of each session are those kept. */
  ghost predicate Within(mem: Memory, limits: map<nat, nat>)
  {
    && (forall p :: p in mem && mem[p].kind == Parent && mem[p].count > 0 ==>
                      mem[p].rule in limits && mem[p].count <= limits[mem[p].rule])
    && forall p :: p in mem ==> Clean(mem[p].state)
  }

  lemma WithinClean(mem: Memory, limits: map<nat, nat>, p: nat)
    requires Within(mem, limits) && p in mem
    ensures Clean(mem[p].state)
  {
  }

  lemma WithinShrunk(mem: Memory, m: Memory, limits: map<nat, nat>)
    requires Within(mem, limits) && Shrunk(mem, m)
    ensures Within(m, limits)
  {
  }

  lemma WithinTouched(mem: Memory, q: nat, m: Memory, limits: map<nat, nat>)
    requires Within(mem, limits) && Touched(mem, q, m)
    ensures |m| == |mem| && Within(m, limits)
  {
    assert |m.Keys| == |mem.Keys|;
  }

  /** A lookup finds a session exactly when one was alive. */
  lemma FoundIff(was: Memory, mem: Memory, pkt: FlowId, now: int)
    requires Shrunk(was, mem) && OnlyExpired(was, mem, now)
    ensures forall p :: Alive(was, pkt, now, p) <==> Alive(mem, pkt, now, p)
  {
  }

  lemma RefreshTouches(cfg: Config, now: int, mem: Memory, q: nat, pkt: FlowId, dir: Direction, ack: Option<nat>)
    requires q in mem
    ensures Touched(mem, q, mem[q := Refresh(cfg, now, mem[q], pkt, dir, ack).0])
  {
    if Clean(mem[q].state) {
      RefreshIs(cfg, now, mem[q], pkt, dir, ack);
    }
  }

  /** The two directions of a flow see the same sessions. */
  lemma AliveBothWays(mem: Memory, pkt: FlowId, rev: FlowId, now: int, p: nat)
    requires Reverse(rev, pkt)
    ensures Alive(mem, pkt, now, p) <==> Alive(mem, rev, now, p)
  {
  }

  ghost predicate DropRefOk(mem: Memory, p: nat)
  {
    p in mem && (mem[p].kind == Limit ==> mem[p].parent in mem && mem[mem[p].parent].count > 0)
  }

  // ---------------------------------------------------------------- remove_dyn_rule

  /** The entries that remove_dyn_rule is asked to remove; no rule (0) stands for all rules. */
  predicate Targeted(e: Entry, p: nat, rule: nat, keep: nat)
  {
    p != keep && (rule == 0 || e.rule == rule)
  }

  /** A pass has nothing to remove at entry `p`. */
  ghost predicate Settled(mem: Memory, p: nat, rule: nat, keep: nat, now: int, pass: nat)
  {
    && p in mem
    && (Targeted(mem[p], p, rule, keep) ==>
          if mem[p].kind == Parent then pass == 0 || mem[p].count > 0 else keep != 0 && mem[p].expire > now)
  }

  /** Everything before place `k` of chain `i` is settled. */
  ghost predicate SettledTo(mem: Memory, v: Chains, i: nat, k: nat, rule: nat, keep: nat, now: int, pass: nat)
  {
    && (forall j, n :: 0 <= j < i && j < |v| && 0 <= n < |v[j]| ==> Settled(mem, v[j][n], rule, keep, now, pass))
    && (i < |v| ==> forall n :: 0 <= n < k && n < |v[i]| ==> Settled(mem, v[i][n], rule, keep, now, pass))
  }

  ghost predicate AllSettled(mem: Memory, rule: nat, keep: nat, now: int, pass: nat)
  {
    forall p :: p in mem ==> Settled(mem, p, rule, keep, now, pass)
  }

  /** What a pass may remove: targeted sessions that have expired or, when forced, any; and in the
      second pass targeted parents without sessions. */
  ghost predicate Swept(was: Memory, mem: Memory, rule: nat, keep: nat, now: int)
  {
    && Shrunk(was, mem)
    && forall p :: p in was && p !in mem ==>
         Targeted(was[p], p, rule, keep) && (was[p].kind == Parent || keep == 0 || was[p].expire <= now)
  }

  lemma SweptTrans(a: Memory, b: Memory, c: Memory, rule: nat, keep: nat, now: int)
    requires Swept(a, b, rule, keep, now) && Swept(b, c, rule, keep, now)
    ensures Swept(a, c, rule, keep, now)
  {
    ShrunkTrans(a, b, c);
  }

  /** The entries of other rules are what they were: the count of a parent follows from its children,
      which are of its rule. */
  lemma OthersUntouched(was: Memory, mem: Memory, rule: nat, keep: nat, now: int)
    requires Counted(was) && Counted(mem) && Swept(was, mem, rule, keep, now) && rule != 0
    ensures forall p :: p in was && was[p].rule != rule ==> p in mem && mem[p] == was[p]
  {
    forall p | p in was && was[p].rule != rule
      ensures p in mem && mem[p] == was[p]
    {
      if was[p].kind == Parent {
        forall c
          ensures c in Children(was, p) <==> c in Children(mem, p)
        {
          assert c in was ==> ChildOk(was, c);
        }
        assert Children(was, p) == Children(mem, p);
        assert ParentOk(was, p) && ParentOk(mem, p);
      }
    }
  }

  lemma SettledAll(mem: Memory, v: Chains, rule: nat, keep: nat, now: int, pass: nat)
    requires TableOk(mem, v) && SettledTo(mem, v, |v|, 0, rule, keep, now, pass)
    ensures AllSettled(mem, rule, keep, now, pass)
  {
    hide Hash, Settled;
    forall p | p in mem
      ensures Settled(mem, p, rule, keep, now, pass)
    {
      assert Hangs(mem, v, p);
    }
  }

  /** Removing another entry settles nothing less, if it changes no count that matters. */
  lemma StillSettled(mem: Memory, p: nat, q: nat, rule: nat, keep: nat, now: int, pass: nat)
    requires DropRefOk(mem, p) && Settled(mem, q, rule, keep, now, pass) && q != p && (pass > 0 ==> mem[p].kind == Parent)
    ensures Settled(Unlinked(mem, p), q, rule, keep, now, pass)
  {
  }

  lemma SettledUnlink(mem: Memory, v: Chains, i: nat, k: nat, rule: nat, keep: nat, now: int, pass: nat)
    requires TableOk(mem, v) && i < |v| && k < |v[i]| && DropRefOk(mem, v[i][k])
    requires SettledTo(mem, v, i, k, rule, keep, now, pass) && (pass > 0 ==> mem[v[i][k]].kind == Parent)
    ensures SettledTo(Unlinked(mem, v[i][k]), v[i := RemoveAt(v[i], k)], i, k, rule, keep, now, pass)
  {
    hide Hash, Settled, Unlinked, Counted, Unique;
    var p, m, w := v[i][k], Unlinked(mem, v[i][k]), v[i := RemoveAt(v[i], k)];
    forall j, n | 0 <= j < i && 0 <= n < |w[j]|
      ensures Settled(m, w[j][n], rule, keep, now, pass)
    {
      assert v[j][n] in v[j] && v[i][k] in v[i];
      StillSettled(mem, p, v[j][n], rule, keep, now, pass);
    }
    forall n | 0 <= n < k && n < |w[i]|
      ensures Settled(m, w[i][n], rule, keep, now, pass)
    {
      assert w[i][n] == v[i][n];
      StillSettled(mem, p, v[i][n], rule, keep, now, pass);
    }
  }

  /** When every targeted session is gone, a targeted parent counts none: the "OUCH" of the second
      pass cannot happen. */
  lemma NoOuch(mem: Memory, p: nat, rule: nat, now: int)
    requires Counted(mem) && AllSettled(mem, rule, 0, now, 0) && p in mem && Targeted(mem[p], p, rule, 0)
    requires mem[p].kind == Parent && 0 !in mem
    ensures mem[p].count == 0
  {
    forall c
      ensures c !in Children(mem, p)
    {
      if c in mem {
        assert ChildOk(mem, c);
        assert Settled(mem, c, rule, 0, now, 0);
      }
    }
    assert ParentOk(mem, p);
    assert Children(mem, p) == {};
  }

  /** Passing over an entry that has nothing to remove. */
  lemma SettledNext(mem: Memory, v: Chains, i: nat, k: nat, rule: nat, keep: nat, now: int, pass: nat)
    requires i < |v| && k < |v[i]| && SettledTo(mem, v, i, k, rule, keep, now, pass)
    requires Settled(mem, v[i][k], rule, keep, now, pass)
    ensures SettledTo(mem, v, i, k + 1, rule, keep, now, pass)
  {
    hide Settled;
  }

  lemma SettledChain(mem: Memory, v: Chains, i: nat, rule: nat, keep: nat, now: int, pass: nat)
    requires i < |v| && SettledTo(mem, v, i, |v[i]|, rule, keep, now, pass)
    ensures SettledTo(mem, v, i + 1, 0, rule, keep, now, pass)
  {
    hide Settled;
  }

  lemma SettledShrinks(mem: Memory, p: nat, rule: nat, keep: nat, now: int)
    requires DropRefOk(mem, p) && AllSettled(mem, rule, keep, now, 0)
    ensures AllSettled(Unlinked(mem, p), rule, keep, now, 0)
  {
    var m := Unlinked(mem, p);
    forall q | q in m
      ensures Settled(m, q, rule, keep, now, 0)
    {
      assert Settled(mem, q, rule, keep, now, 0);
      StillSettled(mem, p, q, rule, keep, now, 0);
    }
  }

  /** Not a targeted parent. */
  ghost predicate Quiet(mem: Memory, p: nat, rule: nat, keep: nat)
  {
    p in mem && !(mem[p].kind == Parent && Targeted(mem[p], p, rule, keep))
  }

  ghost predicate QuietTo(mem: Memory, v: Chains, i: nat, k: nat, rule: nat, keep: nat)
  {
    && (forall j, n :: 0 <= j < i && j < |v| && 0 <= n < |v[j]| ==> Quiet(mem, v[j][n], rule, keep))
    && (i < |v| ==> forall n :: 0 <= n < k && n < |v[i]| ==> Quiet(mem, v[i][n], rule, keep))
  }

  lemma QuietKept(m: Memory, w: Chains, mem: Memory, v: Chains, i: nat, k: nat, rule: nat, keep: nat)
    requires Shrunk(m, mem) && TableOk(mem, v) && i < |w| && k < |w[i]| && v == w[i := RemoveAt(w[i], k)]
    requires QuietTo(m, w, i, k, rule, keep)
    ensures QuietTo(mem, v, i, k, rule, keep)
  {
    hide Hash, Counted, Unique;
    forall j, n | 0 <= j < i && j < |v| && 0 <= n < |v[j]|
      ensures Quiet(mem, v[j][n], rule, keep)
    {
      assert Quiet(m, w[j][n], rule, keep);
      assert v[j][n] in v[j];
    }
    forall n | 0 <= n < k && n < |v[i]|
      ensures Quiet(mem, v[i][n], rule, keep)
    {
      assert v[i][n] == w[i][n];
      assert Quiet(m, w[i][n], rule, keep);
      assert v[i][n] in v[i];
    }
  }

  lemma QuietNext(m: Memory, mem: Memory, v: Chains, i: nat, k: nat, rule: nat, keep: nat)
    requires Shrunk(m, mem) && TableOk(mem, v) && i < |v| && k < |v[i]| && QuietTo(m, v, i, k, rule, keep)
    requires Quiet(mem, v[i][k], rule, keep)
    ensures QuietTo(mem, v, i, k + 1, rule, keep)
  {
    hide Hash, Counted, Unique;
    forall j, n | 0 <= j < i && j < |v| && 0 <= n < |v[j]|
      ensures Quiet(mem, v[j][n], rule, keep)
    {
      assert Quiet(m, v[j][n], rule, keep);
      assert v[j][n] in v[j];
    }
    forall n | 0 <= n < k + 1 && n < |v[i]|
      ensures Quiet(mem, v[i][n], rule, keep)
    {
      assert n < k ==> Quiet(m, v[i][n], rule, keep);
      assert v[i][n] in v[i];
    }
  }

  lemma QuietChain(mem: Memory, v: Chains, i: nat, rule: nat, keep: nat)
    requires i < |v| && QuietTo(mem, v, i, |v[i]|, rule, keep)
    ensures QuietTo(mem, v, i + 1, 0, rule, keep)
  {
    hide Quiet;
  }

  lemma QuietAll(mem: Memory, v: Chains, rule: nat, keep: nat, now: int)
    requires TableOk(mem, v) && QuietTo(mem, v, |v|, 0, rule, keep) && AllSettled(mem, rule, keep, now, 0)
    ensures AllSettled(mem, rule, keep, now, 1)
  {
    hide Hash, Counted, Unique;
    forall p | p in mem
      ensures Settled(mem, p, rule, keep, now, 1)
    {
      assert Settled(mem, p, rule, keep, now, 0);
      assert Hangs(mem, v, p);
      var q := v[Hash(mem[p].id, |v|)];
      var n :| 0 <= n < |q| && q[n] == p;
      assert Quiet(mem, v[Hash(mem[p].id, |v|)][n], rule, keep);
    }
  }

  /** After a forced removal nothing that was targeted is left. */
  lemma NoneLeft(mem: Memory, rule: nat, now: int)
    requires Counted(mem) && AllSettled(mem, rule, 0, now, 1) && 0 !in mem
    ensures forall p :: p in mem ==> !Targeted(mem[p], p, rule, 0)
  {
    assert AllSettled(mem, rule, 0, now, 0) by {
      forall p | p in mem
        ensures Settled(mem, p, rule, 0, now, 0)
      {
        assert Settled(mem, p, rule, 0, now, 1);
      }
    }
    forall p | p in mem
      ensures !Targeted(mem[p], p, rule, 0)
    {
      assert Settled(mem, p, rule, 0, now, 1);
      if Targeted(mem[p], p, rule, 0) && mem[p].kind == Parent {
        NoOuch(mem, p, rule, now);
      }
    }
  }

  lemma OnlyParents(mem: Memory, p: nat, rule: nat, keep: nat, now: int, pass: nat)
    requires p in mem && Targeted(mem[p], p, rule, keep) && (pass > 0 ==> AllSettled(mem, rule, keep, now, 0))
    requires mem[p].kind != Parent ==> keep == 0 || mem[p].expire <= now
    ensures pass > 0 ==> mem[p].kind == Parent
  {
    assert pass > 0 ==> Settled(mem, p, rule, keep, now, 0);
  }

  // ---------------------------------------------------------------- adding entries

  /** The number of chains asked for is neither a power of two nor too large: then
      realloc_dynamic_table falls back on the current one. */
  predicate BadSize(buckets: nat)
  {
    1 <= buckets <= 65536 && And(buckets, buckets - 1) != 0
  }

  /** Three chains are refused: the first kept state after that is reported as installed but is not
      there, as Table.Install says. */
  lemma ThreeIsBad()
    ensures BadSize(3)
  {
    assert And(3, 2) == And(1, 1) * 2;
    assert And(1, 1) == 1 + 2 * And(0, 0);
  }

  lemma KiloIsPower()
    ensures And(1024, 1023) == 0
  {
    AndPower(1, 0);
    AndPower(2, 1);
    AndPower(4, 3);
    AndPower(8, 7);
    AndPower(16, 15);
    AndPower(32, 31);
    AndPower(64, 63);
    AndPower(128, 127);
    AndPower(256, 255);
    AndPower(512, 511);
    AndPower(1024, 1023);
  }

  /** A new entry. */
  function NewEntry(id: FlowId, kind: Kind, rule: nat, parent: nat, expire: int): Entry
  {
    Entry(id, rule, parent, kind, expire, 0, 0, 0, 0)
  }

  /** The parent of a rule for an identity. */
  predicate ParentFor(e: Entry, id: FlowId, rule: nat)
  {
    e.kind == Parent && e.rule == rule && Forward(id, e.id)
  }

  lemma WithinAdded(mem: Memory, p: nat, e: Entry, limits: map<nat, nat>)
    requires Within(mem, limits) && p !in mem && e.count == 0 && Clean(e.state)
    requires e.kind == Limit ==> e.parent in mem && mem[e.parent].rule in limits && mem[e.parent].count < limits[mem[e.parent].rule]
    ensures Within(AddRef(mem, e)[p := e], limits)
  {
  }

  lemma WithinMore(mem: Memory, limits: map<nat, nat>, rule: nat, limit: nat)
    requires Within(mem, limits)
    ensures Within(mem, Raised(limits, rule, limit))
  {
  }

  ghost function Raised(limits: map<nat, nat>, rule: nat, limit: nat): map<nat, nat>
  {
    if rule in limits && limits[rule] >= limit then limits else limits[rule := limit]
  }

  /** The part of ipfw_install_state that keeps the fields of the flow that the limit is on. */
  datatype LimitMask = LimitMask(srcAddr: bool, dstAddr: bool, srcPort: bool, dstPort: bool)

  function Masked(id: FlowId, mask: LimitMask): FlowId
  {
    FlowId(if mask.dstAddr then id.dstIp else 0, if mask.srcAddr then id.srcIp else 0,
           if mask.dstPort then id.dstPort else 0, if mask.srcPort then id.srcPort else 0, id.proto, 0)
  }

  /** Two flows count against one limit exactly if they agree in the protocol and what the limit is on. */
  lemma MaskedIff(a: FlowId, b: FlowId, mask: LimitMask)
    ensures Forward(Masked(a, mask), Masked(b, mask)) <==>
              && a.proto == b.proto && (mask.srcAddr ==> a.srcIp == b.srcIp) && (mask.dstAddr ==> a.dstIp == b.dstIp)
              && (mask.srcPort ==> a.srcPort == b.srcPort) && (mask.dstPort ==> a.dstPort == b.dstPort)
    ensures mask == LimitMask(true, true, true, true) ==> Forward(Masked(a, mask), a)
  {
  }

  datatype Command = DoKeepState | DoLimit(mask: LimitMask, limit: nat) | Unknown

  /** The live sessions that a memory had are still there. */
  ghost predicate LiveKept(was: Memory, mem: Memory, now: int)
  {
    forall p :: Session(was, p) && was[p].expire > now ==> p in mem && mem[p] == was[p]
  }

  ghost predicate NoMatchIn(mem: Memory, id: FlowId)
  {
    forall p :: p in mem ==> !Matches(mem[p], id)
  }

  /** The parent for the masked flow has as many sessions as the limit allows. */
  ghost predicate AtLimit(mem: Memory, id: FlowId, rule: nat, limit: nat)
  {
    exists p :: p in mem && ParentFor(mem[p], id, rule) && mem[p].count >= limit
  }

  /** They are, and those of other flows are what they were. */
  ghost predicate LiveStay(was: Memory, mem: Memory, now: int, id: FlowId)
  {
    forall p :: Session(was, p) && was[p].expire > now ==> Session(mem, p) && (Matches(was[p], id) || mem[p] == was[p])
  }

  /** What a command makes a session of. */
  function KindOf(cmd: Command): Kind
  {
    if cmd.DoLimit? then Limit else KeepState
  }

  /** A limited session counts against the parent for its flow under the mask, which has no more than the limit. */
  ghost predicate LimitedBy(mem: Memory, parent: nat, rule: nat, cmd: Command, id: FlowId)
  {
    if cmd.DoLimit? then parent in mem && ParentFor(mem[parent], Masked(id, cmd.mask), rule) && mem[parent].count <= cmd.limit
    else parent == 0
  }

  /** The session at `p` is what add_dyn_rule makes of the flow. */
  ghost predicate Enrolled(mem: Memory, p: nat, rule: nat, cmd: Command, id: FlowId, expire: int)
  {
    p in mem && mem[p] == NewEntry(id, KindOf(cmd), rule, mem[p].parent, expire) && LimitedBy(mem, mem[p].parent, rule, cmd, id)
  }

  /** It is that, with the lifetime that its first packet has given it. */
  ghost predicate Installed(mem: Memory, p: nat, rule: nat, cmd: Command, id: FlowId, now: int, cfg: Config, cfg': Config)
  {
    && p in mem && LimitedBy(mem, mem[p].parent, rule, cmd, id)
    && Refreshed(cfg, now, NewEntry(id, KindOf(cmd), rule, mem[p].parent, now + cfg.syn), id, MatchForward, None, mem[p], cfg')
  }

  function SideOf(pkt: FlowId, e: Entry): Direction
  {
    if Forward(pkt, e.id) then MatchForward else MatchReverse
  }

  /** The lookup after add_dyn_rule. */
  lemma InstalledBy(m: Memory, mid: Memory, mem: Memory, q: nat, rule: nat, cmd: Command, id: FlowId, dir: Direction, now: int, cfg: Config, cfg': Config)
    requires Enrolled(m, q, rule, cmd, id, now + cfg.syn) && Shrunk(m, mid) && q in mid && Touched(mid, q, mem)
    requires dir == SideOf(id, mid[q]) && Refreshed(cfg, now, mid[q], id, dir, None, mem[q], cfg')
    requires Counted(mem) && Unique(mem) && Matches(mem[q], id)
    ensures forall p :: p in mem && Matches(mem[p], id) ==> Installed(mem, p, rule, cmd, id, now, cfg, cfg')
  {
    hide Refreshed, ParentOk, Masked;
    assert mid[q] == m[q] && mem[q].parent == m[q].parent;
    var parent := m[q].parent;
    assert ChildOk(mem, q);
    if cmd.DoLimit? {
      assert parent in mem && parent != q && mem[parent] == mid[parent] && SameButCount(m[parent], mid[parent]);
    }
    OneSession(mem, q, id);
  }

  lemma OneSession(mem: Memory, q: nat, id: FlowId)
    requires Unique(mem) && q in mem && Matches(mem[q], id)
    ensures forall p :: p in mem && Matches(mem[p], id) ==> p == q
  {
    forall p | p in mem && Matches(mem[p], id)
      ensures p == q
    {
      assert Session(mem, p) && Session(mem, q) && SameFlow(mem[p].id, mem[q].id);
    }
  }

  /** The lookup of a flow that has a session. */
  lemma AliveRefreshed(was: Memory, mid: Memory, mem: Memory, q: nat, id: FlowId, dir: Direction, now: int, cfg: Config, cfg': Config)
    requires Shrunk(was, mid) && q in mid && Matches(mid[q], id) && Unique(was) && q in mem
    requires dir == SideOf(id, mid[q]) && Refreshed(cfg, now, mid[q], id, dir, None, mem[q], cfg')
    ensures forall p :: Alive(was, id, now, p) ==> p in mem && Refreshed(cfg, now, was[p], id, SideOf(id, was[p]), None, mem[p], cfg')
  {
    hide Refreshed;
    assert was[q] == mid[q];
    OneSession(was, q, id);
  }

  lemma AgedKeeps(was: Memory, mid: Memory, now: int)
    requires Shrunk(was, mid) && OnlyExpired(was, mid, now)
    ensures LiveKept(was, mid, now) && forall p :: p in mid ==> p in was
  {
  }

  /** The flow has a session after a lookup that found one. */
  lemma FoundEffect(was: Memory, mid: Memory, mem: Memory, q: nat, id: FlowId, now: int)
    requires LiveKept(was, mid, now) && Touched(mid, q, mem) && Matches(mid[q], id)
    ensures LiveStay(was, mem, now, id) && !NoMatchIn(mem, id)
  {
    assert Matches(mem[q], id);
  }

  lemma MatchThere(mem: Memory, q: nat, id: FlowId)
    requires q in mem && Matches(mem[q], id)
    ensures !NoMatchIn(mem, id)
  {
  }

  lemma NoneThere(mem: Memory, id: FlowId)
    requires NoMatchIn(mem, id)
    ensures forall p :: p in mem ==> !Matches(mem[p], id)
  {
  }

  lemma MatchTouched(mid: Memory, q: nat, mem: Memory, id: FlowId)
    requires Touched(mid, q, mem) && Matches(mid[q], id)
    ensures Matches(mem[q], id)
  {
  }

  lemma NewLife(mem: Memory, rule: nat, cmd: Command, id: FlowId, now: int, life: int)
    requires forall p :: p in mem && Matches(mem[p], id) ==> Enrolled(mem, p, rule, cmd, id, now + life)
    ensures forall p :: p in mem && Matches(mem[p], id) ==> (mem[p].expire > now <==> life > 0)
  {
    hide Matches, LimitedBy;
  }

  lemma LiveKeptStay(was: Memory, mem: Memory, now: int, id: FlowId)
    requires LiveKept(was, mem, now)
    ensures LiveStay(was, mem, now, id)
  {
  }

  lemma SomeMatch(mem: Memory, id: FlowId, now: int)
    requires !NoMatchIn(mem, id) && forall p :: p in mem && Matches(mem[p], id) ==> mem[p].expire > now
    ensures exists p :: Alive(mem, id, now, p)
  {
    var p :| p in mem && Matches(mem[p], id);
    assert Alive(mem, id, now, p);
  }

  lemma SweptEffect(was: Memory, mem: Memory, rule: nat, keep: nat, now: int, id: FlowId, addr: nat)
    requires Swept(was, mem, rule, keep, now) && NoMatchIn(was, id) && keep != 0 && addr !in was
    ensures NoMatchIn(mem, id) && LiveKept(was, mem, now) && addr !in mem && (keep in was ==> keep in mem)
    ensures keep in was ==> mem[keep] == was[keep].(count := mem[keep].count)
  {
  }

  class Table {
    var mem: Memory
    /** ipfw_dyn_v; empty before it is allocated. Each chain is listed from its head. */
    var v: Chains
    var dynCount: nat
    var dynBuckets: nat
    var currBuckets: nat
    var cfg: Config
    var lastRemove: int
    const dynMax: nat
    /** The largest limit asked for so far, by rule. */
    ghost var limits: map<nat, nat>

    ghost predicate Valid()
      reads this
    {
      && TableOk(mem, v) && dynCount == |mem| && 0 !in mem && 1 !in mem
      && dynBuckets > 0 && currBuckets > 0 && (v != [] ==> |v| == currBuckets)
      && dynCount <= dynMax + 1 && Within(mem, limits)
    }

    /** ipfw_dyn_init, with the variables that may be set from outside. */
    constructor (dynMax: nat, cfg: Config)
      ensures Valid() && mem == map[] && v == [] && dynCount == 0 && dynBuckets == currBuckets == 256
      ensures this.dynMax == dynMax && this.cfg == cfg
    {
      mem, v, dynCount, dynBuckets, currBuckets := map[], [], 0, 256, 256;
      this.cfg, this.dynMax, lastRemove, limits := cfg, dynMax, 0, map[];
    }

    /** The variable dyn_buckets is set from outside; 0 would make a table without chains. */
    method SetBuckets(n: nat)
      requires Valid() && n > 0
      modifies `dynBuckets
      ensures Valid() && dynBuckets == n
    {
      hide TableOk, Within;
      dynBuckets := n;
    }

    /** UNLINK_DYN_RULE of the entry at place `k` of chain `i` */
    method Unlink(i: nat, k: nat)
      requires Valid() && i < |v| && k < |v[i]| && Unlinkable(mem, v[i][k])
      modifies `mem, `v, `dynCount
      ensures Valid() && v == old(v)[i := RemoveAt(old(v)[i], k)]
      ensures old(v)[i][k] in old(mem) && DropRefOk(old(mem), old(v)[i][k]) && mem == Unlinked(old(mem), old(v)[i][k])
      ensures Shrunk(old(mem), mem)
    {
      hide TableOk, Shrunk;
      var p := v[i][k];
      UnlinkKeeps(mem, v, p, i, k);
      WithinShrunk(mem, Unlinked(mem, p), limits);
      if mem[p].kind == Limit {
        var parent := mem[p].parent;
        mem := mem[parent := mem[parent].(count := mem[parent].count - 1)];
      }
      v := v[i := v[i][..k] + v[i][k + 1..]];
      dynCount := dynCount - 1;
      mem := mem - {p};
    }

    /** What an operation that only expires entries leaves. */
    ghost predicate Aged(was: Memory, now: int)
      reads this
    {
      Shrunk(was, mem) && OnlyExpired(was, mem, now)
    }

    /** No entry before place `k` of chain `i` matches the packet. */
    ghost predicate NoneBefore(i: nat, k: nat, pkt: FlowId)
      reads this
    {
      i < |v| && k <= |v[i]| && forall j :: 0 <= j < k ==> v[i][j] in mem && !Matches(mem[v[i][j]], pkt)
    }

    /** An expired entry on the way of a search. */
    method ExpireAt(i: nat, k: nat, pkt: FlowId, now: int, ghost was: Memory)
      requires Valid() && NoneBefore(i, k, pkt) && Aged(was, now) && k < |v[i]|
      requires Unlinkable(mem, v[i][k]) && mem[v[i][k]].expire <= now
      modifies `mem, `v, `dynCount
      ensures Valid() && NoneBefore(i, k, pkt) && Aged(was, now) && |v| == old(|v|) && |v[i]| == old(|v[i]|) - 1
    {
      hide TableOk, Within;
      ghost var m, w := mem, v;
      OfTable(mem, v, i, k);
      ChainDistinct(mem, v, i);
      Unlink(i, k);
      ShrunkTrans(was, m, mem);
      forall j | 0 <= j < k
        ensures v[i][j] in mem && !Matches(mem[v[i][j]], pkt)
      {
        assert v[i][j] == w[i][j] != w[i][k];
      }
    }

    lemma NoneAtAll(i: nat, pkt: FlowId)
      requires TableOk(mem, v) && |v| > 0 && i == Hash(pkt, |v|) && NoneBefore(i, |v[i]|, pkt)
      ensures forall p :: p in mem ==> !Matches(mem[p], pkt)
    {
      hide TableOk, Hash;
      forall p | p in mem
        ensures !Matches(mem[p], pkt)
      {
        if Matches(mem[p], pkt) {
          MatchesInChain(mem, v, pkt, p);
        }
      }
    }

    /** The part of lookup_dyn_rule_locked that walks the chain and expires entries on its way. */
    method Search(pkt: FlowId, now: int) returns (i: nat, k: nat, dir: Direction)
      requires Valid() && v != []
      modifies `mem, `v, `dynCount
      ensures Valid() && Aged(old(mem), now)
      ensures |v| == old(|v|) && i == Hash(pkt, |v|) && k <= |v[i]|
      ensures dir != NoMatch ==> k < |v[i]| && Alive(mem, pkt, now, v[i][k])
      ensures dir != NoMatch ==> (dir == MatchForward <==> Forward(pkt, mem[v[i][k]].id))
      ensures dir == NoMatch ==> k == |v[i]| && forall p :: p in mem ==> !Matches(mem[p], pkt)
    {
      hide TableOk, Hash, Within, Aged;
      i, k, dir := Hash(pkt, currBuckets), 0, NoMatch;
      ghost var was := mem;
      AgedNone(now);
      while k < |v[i]|
        invariant Valid() && Aged(was, now) && |v| == old(|v|) && NoneBefore(i, k, pkt)
        decreases |v[i]| - k
      {
        OfTable(mem, v, i, k);
        var e := mem[v[i][k]];
        if !(e.kind == Parent && e.count > 0) {
          if e.expire <= now {
            ExpireAt(i, k, pkt, now, was);
            continue;
          }
          if e.kind != Parent {
            if Forward(pkt, e.id) {
              dir := MatchForward;
              return;
            }
            if Reverse(pkt, e.id) {
              dir := MatchReverse;
              return;
            }
          }
        }
        k := k + 1;
      }
      NoneAtAll(i, pkt);
    }

    lemma AgedNone(now: int)
      ensures Aged(mem, now)
    {
    }

    /** lookup_dyn_rule_locked; 0 is NULL. `mid` is the memory without the entries expired on the way. */
    method Lookup(pkt: FlowId, now: int, ack: Option<nat>) returns (q: nat, dir: Direction, ghost mid: Memory)
      requires Valid()
      modifies `mem, `v, `dynCount, `cfg
      ensures Valid() && |v| == old(|v|) && (q != 0 ==> v != [])
      ensures Shrunk(old(mem), mid) && OnlyExpired(old(mem), mid, now)
      ensures (q == 0) == (dir == NoMatch) == (forall p :: !Alive(old(mem), pkt, now, p))
      ensures q == 0 ==> mem == mid && cfg == old(cfg) && forall p :: p in mem ==> !Matches(mem[p], pkt)
      ensures q != 0 ==> Alive(old(mem), pkt, now, q) && q in mid && (dir == MatchForward <==> Forward(pkt, mid[q].id))
      ensures q != 0 ==> mem == mid[q := Refresh(old(cfg), now, mid[q], pkt, dir, ack).0]
      ensures q != 0 ==> cfg == Refresh(old(cfg), now, mid[q], pkt, dir, ack).1
      ensures q != 0 ==> Refreshed(old(cfg), now, mid[q], pkt, dir, ack, mem[q], cfg)
    {
      hide TableOk, Hash, Within, Refresh, Refreshed, Matches, Shrunk, OnlyExpired;
      q, dir, mid := 0, NoMatch, mem;
      if v == [] {
        NoneWithout(now);
        return;
      }
      ghost var was := mem;
      var i, k;
      i, k, dir := Search(pkt, now);
      mid := mem;
      FoundIff(was, mem, pkt, now);
      if dir == NoMatch {
        return;
      }
      q := v[i][k];
      FrontKeeps(mem, v, i, k);
      if k != 0 {
        v := v[i := [q] + (v[i][..k] + v[i][k + 1..])];
      }
      var (e, c) := Refresh(cfg, now, mem[q], pkt, dir, ack);
      WithinClean(mem, limits, q);
      RefreshIs(cfg, now, mem[q], pkt, dir, ack);
      RefreshTouches(cfg, now, mem, q, pkt, dir, ack);
      TouchKeeps(mem, v, q, mem[q := e]);
      WithinTouched(mem, q, mem[q := e], limits);
      mem := mem[q := e];
      cfg := c;
    }

    lemma NoneWithout(now: int)
      requires TableOk(mem, v) && v == []
      ensures mem == map[] && Shrunk(mem, mem) && OnlyExpired(mem, mem, now)
    {
      assert forall p :: p in mem ==> !Hangs(mem, v, p);
    }

    /** The entry at place `k` of chain `i` is removed by a pass. */
    method SweepAt(i: nat, k: nat, rule: nat, keep: nat, now: int, pass: nat, ghost was: Memory)
      requires Valid() && i < |v| && k < |v[i]| && v[i][k] in mem && Swept(was, mem, rule, keep, now)
      requires SettledTo(mem, v, i, k, rule, keep, now, pass) && (pass > 0 ==> AllSettled(mem, rule, keep, now, 0))
      requires Targeted(mem[v[i][k]], v[i][k], rule, keep) && (pass > 0 ==> mem[v[i][k]].kind == Parent)
      requires if mem[v[i][k]].kind == Parent then mem[v[i][k]].count == 0 else keep == 0 || mem[v[i][k]].expire <= now
      modifies `mem, `v, `dynCount
      ensures Valid() && |v| == old(|v|) && |v[i]| == old(|v[i]|) - 1 && Swept(was, mem, rule, keep, now)
      ensures SettledTo(mem, v, i, k, rule, keep, now, pass) && (pass > 0 ==> AllSettled(mem, rule, keep, now, 0))
      ensures v == old(v)[i := RemoveAt(old(v)[i], k)] && Shrunk(old(mem), mem)
    {
      hide TableOk, Within, AllSettled, SettledTo, Settled;
      ghost var m, w, p := mem, v, v[i][k];
      Unlink(i, k);
      SettledUnlink(m, w, i, k, rule, keep, now, pass);
      if pass > 0 {
        SettledShrinks(m, p, rule, keep, now);
      }
    }

    /** What the entry at place `k` of chain `i` calls for in a pass; `parent` records one left for the
        second pass. */
    method SweepStep(i: nat, k: nat, rule: nat, keep: nat, now: int, pass: nat, ghost was: Memory)
      returns (removed: bool, parent: bool)
      requires Valid() && i < |v| && k < |v[i]| && Swept(was, mem, rule, keep, now) && pass <= 1
      requires SettledTo(mem, v, i, k, rule, keep, now, pass) && (pass > 0 ==> AllSettled(mem, rule, keep, now, 0))
      modifies `mem, `v, `dynCount
      ensures Valid() && |v| == old(|v|) && Swept(was, mem, rule, keep, now)
      ensures |v[i]| == if removed then old(|v[i]|) - 1 else old(|v[i]|)
      ensures SettledTo(mem, v, i, if removed then k else k + 1, rule, keep, now, pass)
      ensures pass > 0 ==> AllSettled(mem, rule, keep, now, 0)
      ensures v == if removed then old(v)[i := RemoveAt(old(v)[i], k)] else old(v)
      ensures Shrunk(old(mem), mem)
      ensures !parent && !removed ==> Quiet(mem, v[i][k], rule, keep)
    {
      hide TableOk, Within, AllSettled, SettledTo, Counted;
      OfTable(mem, v, i, k);
      var q := v[i][k];
      var e := mem[q];
      removed, parent := false, false;
      if q == keep || (rule != 0 && e.rule != rule) {
        SettledNext(mem, v, i, k, rule, keep, now, pass);
        return;
      }
      if e.kind == Parent {
        parent := true;
        if pass == 0 {
          SettledNext(mem, v, i, k, rule, keep, now, pass);
          return;
        }
        if keep == 0 {
          TableCounts(mem, v);
          NoOuch(mem, q, rule, now);
          assert e.count == 0;
        }
      } else if keep != 0 && !(e.expire <= now) {
        SettledNext(mem, v, i, k, rule, keep, now, pass);
        return;
      }
      if e.kind != Parent || e.count == 0 {
        OnlyParents(mem, q, rule, keep, now, pass);
        SweepAt(i, k, rule, keep, now, pass, was);
        removed := true;
        return;
      }
      SettledNext(mem, v, i, k, rule, keep, now, pass);
    }

    /** One pass of remove_dyn_rule over all chains. */
    method Sweep(rule: nat, keep: nat, now: int, pass: nat) returns (parents: bool)
      requires Valid() && pass <= 1 && (pass > 0 ==> AllSettled(mem, rule, keep, now, 0))
      modifies `mem, `v, `dynCount
      ensures Valid() && Swept(old(mem), mem, rule, keep, now) && |v| == old(|v|)
      ensures AllSettled(mem, rule, keep, now, pass)
      ensures !parents ==> AllSettled(mem, rule, keep, now, 1)
    {
      hide TableOk, Within, AllSettled, SettledTo, Counted, QuietTo, Quiet, Shrunk;
      ghost var was, n := mem, |v|;
      parents := false;
      var i := 0;
      SweepStart(rule, keep, now, pass);
      while i < |v|
        invariant Valid() && |v| == n && i <= n && Swept(was, mem, rule, keep, now)
        invariant SettledTo(mem, v, i, 0, rule, keep, now, pass) && (pass > 0 ==> AllSettled(mem, rule, keep, now, 0))
        invariant !parents ==> QuietTo(mem, v, i, 0, rule, keep)
      {
        var k := 0;
        while k < |v[i]|
          invariant Valid() && |v| == n && i < n && k <= |v[i]| && Swept(was, mem, rule, keep, now)
          invariant SettledTo(mem, v, i, k, rule, keep, now, pass) && (pass > 0 ==> AllSettled(mem, rule, keep, now, 0))
          invariant !parents ==> QuietTo(mem, v, i, k, rule, keep)
          decreases |v[i]| - k
        {
          ghost var m, w := mem, v;
          var removed, parent := SweepStep(i, k, rule, keep, now, pass, was);
          parents := parents || parent;
          if removed {
            if !parents {
              QuietKept(m, w, mem, v, i, k, rule, keep);
            }
          } else {
            if !parents {
              QuietNext(m, mem, v, i, k, rule, keep);
            }
            k := k + 1;
          }
        }
        SettledChain(mem, v, i, rule, keep, now, pass);
        if !parents {
          QuietChain(mem, v, i, rule, keep);
        }
        i := i + 1;
      }
      SettledAll(mem, v, rule, keep, now, pass);
      if !parents && pass == 0 {
        QuietAll(mem, v, rule, keep, now);
      }
    }

    lemma SweepStart(rule: nat, keep: nat, now: int, pass: nat)
      ensures Swept(mem, mem, rule, keep, now) && SettledTo(mem, v, 0, 0, rule, keep, now, pass)
      ensures QuietTo(mem, v, 0, 0, rule, keep)
    {
    }

    /** remove_dyn_rule: expired entries, or with `keep` 0 all entries, of a rule or of every rule (0);
        expired ones at most once a second. */
    method RemoveRules(rule: nat, keep: nat, now: int)
      requires Valid()
      modifies `mem, `v, `dynCount, `lastRemove
      ensures Valid() && Swept(old(mem), mem, rule, keep, now) && |v| == old(|v|)
      ensures keep == 0 ==> forall p :: p in mem ==> rule != 0 && mem[p].rule != rule
      ensures rule != 0 ==> forall p :: p in old(mem) && old(mem)[p].rule != rule ==> p in mem && mem[p] == old(mem)[p]
      ensures dynCount <= old(dynCount)
      ensures keep == 0 || old(lastRemove) != now ==> AllSettled(mem, rule, keep, now, 1)
      ensures keep != 0 && old(lastRemove) == now ==> mem == old(mem) && v == old(v)
    {
      hide TableOk, Within, AllSettled, Counted, Shrunk;
      if v == [] || dynCount == 0 {
        NothingToSweep(rule, keep, now);
        return;
      }
      SweepStart(rule, keep, now, 0);
      if keep != 0 && lastRemove == now {
        return;
      }
      lastRemove := now;
      ghost var was := mem;
      TableCounts(mem, v);
      var parents := Sweep(rule, keep, now, 0);
      if parents {
        ghost var mid := mem;
        parents := Sweep(rule, keep, now, 1);
        SweptTrans(was, mid, mem, rule, keep, now);
      }
      TableCounts(mem, v);
      ShrunkSmaller(was, mem);
      if rule != 0 {
        OthersUntouched(was, mem, rule, keep, now);
      }
      if keep == 0 {
        NoneLeft(mem, rule, now);
      }
    }

    lemma NothingToSweep(rule: nat, keep: nat, now: int)
      requires TableOk(mem, v) && (v == [] || |mem| == 0)
      ensures mem == map[] && Swept(mem, mem, rule, keep, now) && AllSettled(mem, rule, keep, now, 1)
    {
      if v == [] {
        NoneWithout(now);
      } else {
        assert |mem| == 0 ==> mem == map[];
      }
    }

    /** realloc_dynamic_table */
    method Realloc()
      requires Valid() && mem == map[]
      modifies `v, `dynBuckets, `currBuckets
      ensures Valid() && dynBuckets > 0
      ensures v == [] <==> old(v) == [] && BadSize(old(dynBuckets))
      ensures BadSize(old(dynBuckets)) ==> v == old(v) && currBuckets == dynBuckets == old(currBuckets)
      ensures !BadSize(old(dynBuckets)) ==>
                && v == seq(currBuckets, _ => [])
                && currBuckets == dynBuckets == if old(dynBuckets) > 65536 then 1024 else old(dynBuckets)
    {
      hide TableOk, Within, And;
      if dynBuckets > 65536 {
        dynBuckets := 1024;
        KiloIsPower();
      }
      if And(dynBuckets, dynBuckets - 1) != 0 {
        dynBuckets := currBuckets;
        return;
      }
      currBuckets := dynBuckets;
      ReallocKeeps(mem, v, currBuckets);
      v := seq(currBuckets, _ => []);
    }

    /** add_dyn_rule; `addr` is what the allocator returns and 0 is NULL. For a limited session `rule`
        is the address of the parent. */
    method AddRule(id: FlowId, kind: Kind, rule: nat, now: int, addr: nat) returns (r: nat)
      requires Valid() && addr > 1 && dynCount <= dynMax
      requires kind == Limit ==> rule in mem && mem[rule].rule in limits && mem[rule].count < limits[mem[rule].rule]
      requires Linkable(mem, addr, NewEntry(id, kind, if kind == Limit then mem[rule].rule else rule,
                                            if kind == Limit then rule else 0, now + cfg.syn))
      modifies `mem, `v, `dynCount, `dynBuckets, `currBuckets
      ensures Valid() && (r == 0 || r == addr)
      ensures r == 0 <==> old(v) == [] && BadSize(old(dynBuckets))
      ensures r == 0 ==> mem == old(mem) && dynCount == old(dynCount)
      ensures v == [] <==> r == 0
      ensures r != 0 ==> dynCount == old(dynCount) + 1
      ensures r != 0 ==> var e := NewEntry(id, kind, if kind == Limit then old(mem)[rule].rule else rule,
                                           if kind == Limit then rule else 0, now + cfg.syn);
                         mem == AddRef(old(mem), e)[r := e]
    {
      hide TableOk, Within, BadSize, Hash, Linkable;
      ghost var e := NewEntry(id, kind, if kind == Limit then mem[rule].rule else rule,
                              if kind == Limit then rule else 0, now + cfg.syn);
      if v == [] || (dynCount == 0 && dynBuckets != currBuckets) {
        NoEntries();
        Realloc();
        if v == [] {
          return 0;
        }
      }
      var i := Hash(id, currBuckets);
      LinkKeeps(mem, v, addr, e, i);
      LinkableFresh(addr, e);
      WithinAdded(mem, addr, e, limits);
      var owner, parent := rule, 0;
      if kind == Limit {
        mem := mem[rule := mem[rule].(count := mem[rule].count + 1)];
        parent := rule;
        owner := mem[rule].rule;
      }
      r := addr;
      mem := mem[r := NewEntry(id, kind, owner, parent, now + cfg.syn)];
      v := v[i := [r] + v[i]];
      dynCount := dynCount + 1;
    }

    lemma LinkableFresh(p: nat, e: Entry)
      requires Linkable(mem, p, e)
      ensures p !in mem && (e.kind == Limit ==> e.parent in mem)
    {
    }

    lemma NoEntries()
      requires TableOk(mem, v) && (v == [] || |mem| == 0)
      ensures mem == map[]
    {
      if v == [] {
        NoneWithout(0);
      } else {
        assert |mem| == 0 ==> mem == map[];
      }
    }

    /** The search of lookup_dyn_parent. */
    method FindParent(id: FlowId, rule: nat) returns (q: nat)
      requires Valid()
      ensures q != 0 ==> q in mem && ParentFor(mem[q], id, rule)
      ensures q == 0 ==> forall p :: p in mem ==> !ParentFor(mem[p], id, rule)
    {
      hide TableOk, Within, Hash;
      q := 0;
      if v == [] {
        NoneWithout(0);
        return;
      }
      var i, k := Hash(id, currBuckets), 0;
      while k < |v[i]|
        invariant k <= |v[i]| && forall n :: 0 <= n < k ==> v[i][n] in mem && !ParentFor(mem[v[i][n]], id, rule)
      {
        OfTable(mem, v, i, k);
        if ParentFor(mem[v[i][k]], id, rule) {
          return v[i][k];
        }
        k := k + 1;
      }
      NoParent(id, rule, i);
    }

    lemma NoParent(id: FlowId, rule: nat, i: nat)
      requires TableOk(mem, v) && |v| > 0 && i == Hash(id, |v|)
      requires forall n :: 0 <= n < |v[i]| ==> v[i][n] in mem && !ParentFor(mem[v[i][n]], id, rule)
      ensures forall p :: p in mem ==> !ParentFor(mem[p], id, rule)
    {
      hide Hash;
      forall p | p in mem
        ensures !ParentFor(mem[p], id, rule)
      {
        assert Hangs(mem, v, p);
        if Forward(id, mem[p].id) {
          HashSymmetric(id, mem[p].id, |v|);
        }
      }
    }

    /** Sessions are what they were. */
    ghost predicate SameSessions(was: Memory)
      reads this
    {
      && (forall p :: Session(mem, p) <==> Session(was, p))
      && (forall p :: Session(was, p) && p in mem ==> mem[p] == was[p])
    }

    /** lookup_dyn_parent */
    method LookupParent(id: FlowId, rule: nat, now: int, addr: nat) returns (q: nat)
      requires Valid() && addr > 1 && addr !in mem && dynCount <= dynMax
      modifies `mem, `v, `dynCount, `dynBuckets, `currBuckets
      ensures Valid() && SameSessions(old(mem))
      ensures q == 0 <==> old(v) == [] && BadSize(old(dynBuckets))
      ensures q == 0 ==> mem == old(mem) && v == []
      ensures q != 0 ==> q in mem && ParentFor(mem[q], id, rule) && v != []
      ensures forall p :: p in old(mem) && p != q ==> p in mem && mem[p] == old(mem)[p]
      ensures forall p :: p in mem ==> p in old(mem) || (p == addr && p == q)
      ensures q in old(mem) ==> dynCount == old(dynCount) && mem[q] == old(mem)[q].(expire := now + cfg.short)
      ensures q !in old(mem) && q != 0 ==> dynCount == old(dynCount) + 1 && mem[q] == NewEntry(id, Parent, rule, 0, now + cfg.syn)
    {
      hide TableOk, Within, Hash, BadSize;
      q := FindParent(id, rule);
      if q != 0 {
        ghost var m := mem[q := mem[q].(expire := now + cfg.short)];
        assert Touched(mem, q, m);
        TouchKeeps(mem, v, q, m);
        WithinTouched(mem, q, m, limits);
        SomeEntry(q);
        mem := mem[q := mem[q].(expire := now + cfg.short)];
        return;
      }
      ParentLinkable(id, rule, now + cfg.syn, addr);
      q := AddRule(id, Parent, rule, now, addr);
    }

    lemma SomeEntry(q: nat)
      requires TableOk(mem, v) && q in mem
      ensures v != []
    {
      assert Hangs(mem, v, q);
    }

    lemma ParentLinkable(id: FlowId, rule: nat, expire: int, addr: nat)
      requires addr !in mem && forall p :: p in mem ==> !ParentFor(mem[p], id, rule)
      ensures Linkable(mem, addr, NewEntry(id, Parent, rule, 0, expire))
    {
    }

    /** The switch of ipfw_install_state, for a flow without a session and a table with room. */
    method MakeSession(rule: nat, cmd: Command, id: FlowId, now: int, addr: nat, addr': nat) returns (r: nat)
      requires Valid() && addr > 1 && addr' > 1 && addr != addr' && addr !in mem && addr' !in mem
      requires dynCount < dynMax && NoMatchIn(mem, id)
      modifies this
      ensures Valid() && cfg == old(cfg) && (r == 0 || r == 1) && LiveKept(old(mem), mem, now)
      ensures r == 0 ==> cmd != Unknown && (NoMatchIn(mem, id) <==> old(v) == [] && BadSize(old(dynBuckets)))
      ensures r == 0 ==> forall p :: p in mem && Matches(mem[p], id) ==> Enrolled(mem, p, rule, cmd, id, now + cfg.syn)
      ensures r == 1 ==> NoMatchIn(mem, id)
      ensures cmd == DoKeepState ==> r == 0
      ensures old(v) == [] && BadSize(old(dynBuckets)) && cmd != DoKeepState ==> r == 1
      ensures r == 1 ==> cmd == Unknown || (old(v) == [] && BadSize(old(dynBuckets))) ||
                         (cmd.DoLimit? && AtLimit(mem, Masked(id, cmd.mask), rule, cmd.limit))
      ensures limits == old(limits) || (cmd.DoLimit? && limits == Raised(old(limits), rule, cmd.limit))
    {
      hide TableOk, Within, Hash, BadSize, Raised;
      r := 0;
      match cmd {
        case DoKeepState =>
          SessionLinkable(id, KeepState, rule, 0, now + cfg.syn, addr);
          ghost var mid := mem;
          var q := AddRule(id, KeepState, rule, now, addr);
          if q != 0 {
            AddedEffect(mid, NewEntry(id, KeepState, rule, 0, now + cfg.syn), q, id, now);
          }
        case DoLimit(mask, limit) =>
          r := LimitSession(rule, mask, limit, id, now, addr, addr');
        case Unknown =>
          return 1;
      }
    }

    /** The case O_LIMIT up to the second test of the limit; 0 if there is no parent or no room. */
    method FindRoom(rule: nat, mask: LimitMask, limit: nat, id: FlowId, now: int, addr: nat, addr': nat) returns (parent: nat)
      requires Valid() && addr > 1 && addr != addr' && addr !in mem && addr' !in mem
      requires dynCount < dynMax && NoMatchIn(mem, id)
      modifies `mem, `v, `dynCount, `dynBuckets, `currBuckets, `lastRemove
      ensures Valid() && LiveKept(old(mem), mem, now) && NoMatchIn(mem, id) && addr' !in mem && dynCount <= dynMax
      ensures old(v) == [] && BadSize(old(dynBuckets)) ==> parent == 0
      ensures parent == 0 ==> (old(v) == [] && BadSize(old(dynBuckets))) || AtLimit(mem, Masked(id, mask), rule, limit)
      ensures parent != 0 ==> v != [] && parent in mem && mem[parent].kind == Parent && mem[parent].rule == rule
      ensures parent != 0 ==> Forward(Masked(id, mask), mem[parent].id) && mem[parent].count < limit
    {
      hide TableOk, Within, BadSize, AllSettled, Masked, NoMatchIn, LiveKept, SameSessions, Swept;
      ghost var was := mem;
      parent := LookupParent(Masked(id, mask), rule, now, addr);
      SameEffect(was, now, id);
      if parent == 0 {
        return;
      }
      if mem[parent].count >= limit {
        ghost var mid := mem;
        RemoveRules(rule, parent, now);
        SweptEffect(mid, mem, rule, parent, now, id, addr');
        LiveKeptTrans(was, mid, mem, now);
        if mem[parent].count >= limit {
          return 0;
        }
      }
    }

    /** The case O_LIMIT. */
    method LimitSession(rule: nat, mask: LimitMask, limit: nat, id: FlowId, now: int, addr: nat, addr': nat) returns (r: nat)
      requires Valid() && addr > 1 && addr' > 1 && addr != addr' && addr !in mem && addr' !in mem
      requires dynCount < dynMax && NoMatchIn(mem, id)
      modifies this
      ensures Valid() && cfg == old(cfg) && (r == 0 || r == 1) && LiveKept(old(mem), mem, now)
      ensures old(v) == [] && BadSize(old(dynBuckets)) ==> r == 1
      ensures r == 0 ==> !NoMatchIn(mem, id)
      ensures r == 0 ==> forall p :: p in mem && Matches(mem[p], id) ==> Enrolled(mem, p, rule, DoLimit(mask, limit), id, now + cfg.syn)
      ensures r == 1 ==> NoMatchIn(mem, id)
      ensures r == 1 ==> (old(v) == [] && BadSize(old(dynBuckets))) || AtLimit(mem, Masked(id, mask), rule, limit)
      ensures limits == old(limits) || limits == Raised(old(limits), rule, limit)
    {
      hide TableOk, Within, Hash, BadSize, Masked, NoMatchIn, LiveKept;
      ghost var was := mem;
      var parent := FindRoom(rule, mask, limit, id, now, addr, addr');
      if parent == 0 {
        return 1;
      }
      WithinMore(mem, limits, rule, limit);
      limits := Raised(limits, rule, limit);
      r := 0;
      SessionLinkable(id, Limit, rule, parent, now + cfg.syn, addr');
      ghost var mid := mem;
      var q := AddRule(id, Limit, parent, now, addr');
      AddedEffect(mid, NewEntry(id, Limit, rule, parent, now + cfg.syn), q, id, now);
      LiveKeptTrans(was, mid, mem, now);
    }

    lemma SessionLinkable(id: FlowId, kind: Kind, rule: nat, parent: nat, expire: int, addr: nat)
      requires addr !in mem && NoMatchIn(mem, id) && kind != Parent
      requires kind == Limit ==> parent in mem && mem[parent].kind == Parent && mem[parent].rule == rule
      ensures Linkable(mem, addr, NewEntry(id, kind, rule, parent, expire))
    {
    }

    lemma SameEffect(was: Memory, now: int, id: FlowId)
      requires SameSessions(was) && NoMatchIn(was, id)
      ensures NoMatchIn(mem, id) && LiveKept(was, mem, now)
    {
      assert forall p :: p in mem && mem[p].kind != Parent ==> Session(mem, p);
    }

    lemma AddedEffect(was: Memory, e: Entry, q: nat, id: FlowId, now: int)
      requires NoMatchIn(was, id) && q !in was && e.kind != Parent && SameFlow(id, e.id) && (e.kind == Limit ==> e.parent in was)
      requires mem == AddRef(was, e)[q := e] && forall p :: p in was && e.kind == Limit && p == e.parent ==> was[p].kind == Parent
      ensures !NoMatchIn(mem, id) && LiveKept(was, mem, now)
      ensures forall p :: p in mem && Matches(mem[p], id) ==> p == q
    {
      assert Matches(mem[q], id);
    }

    lemma LiveKeptTrans(a: Memory, b: Memory, c: Memory, now: int)
      requires LiveKept(a, b, now) && LiveKept(b, c, now)
      ensures LiveKept(a, c, now)
    {
    }

    /** The lookup that sets the lifetime of a new session, or removes one that has none. */
    method SetLifetime(rule: nat, cmd: Command, id: FlowId, now: int, ghost was: Memory)
      requires Valid() && LiveKept(was, mem, now)
      requires forall p :: p in mem && Matches(mem[p], id) ==> Enrolled(mem, p, rule, cmd, id, now + cfg.syn)
      modifies `mem, `v, `dynCount, `cfg
      ensures Valid() && LiveStay(was, mem, now, id)
      ensures NoMatchIn(mem, id) <==> old(cfg).syn <= 0 || NoMatchIn(old(mem), id)
      ensures forall p :: p in mem && Matches(mem[p], id) ==> Installed(mem, p, rule, cmd, id, now, old(cfg), cfg)
    {
      hide TableOk, Within, NoMatchIn, LiveKept, LiveStay, Shrunk, OnlyExpired, Matches, Refresh, Refreshed, Touched, Enrolled, Installed, Forward;
      ghost var live := cfg.syn > 0;
      NewLife(mem, rule, cmd, id, now, cfg.syn);
      ghost var m := mem;
      var c0 := cfg;
      var q, dir, mid := Lookup(id, now, None);
      AgedKeeps(m, mid, now);
      LiveKeptTrans(was, m, mid, now);
      if q == 0 {
        if live && !NoMatchIn(m, id) {
          SomeMatch(m, id, now);
        }
        NoneMatch(id);
        LiveKeptStay(was, mem, now, id);
      } else {
        RefreshTouches(c0, now, mid, q, id, dir, None);
        FoundIff(m, mid, id, now);
        FoundEffect(was, mid, mem, q, id, now);
        MatchThere(m, q, id);
        MatchTouched(mid, q, mem, id);
        PartsOf();
        InstalledBy(m, mid, mem, q, rule, cmd, id, dir, now, c0, cfg);
      }
    }

    /** ipfw_install_state for a flow that has no session; `was` is the memory before its lookup. */
    method InstallNew(rule: nat, cmd: Command, id: FlowId, now: int, addr: nat, addr': nat, ghost was: Memory) returns (r: nat)
      requires Valid() && addr > 1 && addr' > 1 && addr != addr' && addr !in mem && addr' !in mem
      requires LiveKept(was, mem, now) && NoMatchIn(mem, id)
      modifies this
      ensures Valid() && (r == 0 || r == 1) && LiveStay(was, mem, now, id)
      ensures r == 1 ==> NoMatchIn(mem, id)
      ensures r == 0 ==> (!NoMatchIn(mem, id) <==> old(cfg).syn > 0 && !(old(v) == [] && BadSize(old(dynBuckets)) && cmd == DoKeepState))
      ensures old(v) == [] && BadSize(old(dynBuckets)) && old(dynCount) < dynMax ==> (r == 0 <==> cmd == DoKeepState)
      ensures cmd == DoKeepState && old(dynCount) < dynMax ==> r == 0
      ensures r == 1 && cmd != Unknown && dynCount < dynMax ==>
                (old(v) == [] && BadSize(old(dynBuckets))) || (cmd.DoLimit? && AtLimit(mem, Masked(id, cmd.mask), rule, cmd.limit))
      ensures limits == old(limits) || (cmd.DoLimit? && limits == Raised(old(limits), rule, cmd.limit))
      ensures forall p :: p in mem && Matches(mem[p], id) ==> Installed(mem, p, rule, cmd, id, now, old(cfg), cfg)
    {
      hide TableOk, Within, Hash, BadSize, Masked, NoMatchIn, LiveKept, LiveStay, Raised, AtLimit, Swept, AllSettled, Shrunk, OnlyExpired, Refresh, Refreshed, Touched,
           Enrolled, Installed, Matches, Forward, Unique, Counted;
      ghost var mid := mem;
      if dynCount >= dynMax {
        RemoveRules(0, 1, now);
        SweptEffect(mid, mem, 0, 1, now, id, addr);
        SweptEffect(mid, mem, 0, 1, now, id, addr');
        LiveKeptTrans(was, mid, mem, now);
      }
      if dynCount >= dynMax {
        LiveKeptStay(was, mem, now, id);
        NoneThere(mem, id);
        return 1;
      }
      mid := mem;
      r := MakeSession(rule, cmd, id, now, addr, addr');
      LiveKeptTrans(was, mid, mem, now);
      if r == 1 {
        LiveKeptStay(was, mem, now, id);
        NoneThere(mem, id);
        return;
      }
      SetLifetime(rule, cmd, id, now, was);
    }

    /** ipfw_install_state. A refusal leaves the flow without a session. Success leaves it with one exactly
        if it had one that was alive, or new sessions have a lifetime and it is not a first kept state while
        the number of chains asked for is refused. No live session is lost. */
    method Install(rule: nat, cmd: Command, id: FlowId, now: int, addr: nat, addr': nat) returns (r: nat)
      requires Valid() && addr > 1 && addr' > 1 && addr != addr' && addr !in mem && addr' !in mem
      modifies this
      ensures Valid() && (r == 0 || r == 1) && LiveStay(old(mem), mem, now, id)
      ensures r == 1 ==> NoMatchIn(mem, id)
      ensures r == 0 ==> (!NoMatchIn(mem, id) <==> (exists p :: Alive(old(mem), id, now, p)) ||
                                                   (old(cfg).syn > 0 && !(old(v) == [] && BadSize(old(dynBuckets)) && cmd == DoKeepState)))
      ensures old(v) == [] && BadSize(old(dynBuckets)) && dynMax > 0 ==> (r == 0 <==> cmd == DoKeepState)
      ensures (exists p :: Alive(old(mem), id, now, p)) ==> r == 0
      ensures cmd == DoKeepState && old(dynCount) < dynMax ==> r == 0
      ensures r == 1 && cmd != Unknown && dynCount < dynMax ==>
                (old(v) == [] && BadSize(old(dynBuckets))) || (cmd.DoLimit? && AtLimit(mem, Masked(id, cmd.mask), rule, cmd.limit))
      ensures limits == old(limits) || (cmd.DoLimit? && limits == Raised(old(limits), rule, cmd.limit))
      ensures forall p :: Alive(old(mem), id, now, p) ==>
                p in mem && Refreshed(old(cfg), now, old(mem)[p], id, SideOf(id, old(mem)[p]), None, mem[p], cfg)
      ensures (forall p :: !Alive(old(mem), id, now, p)) ==>
                forall p :: p in mem && Matches(mem[p], id) ==> Installed(mem, p, rule, cmd, id, now, old(cfg), cfg)
    {
      hide TableOk, Within, Hash, BadSize, Masked, NoMatchIn, LiveKept, LiveStay, Raised, AtLimit, Swept, AllSettled, Shrunk, OnlyExpired, Refresh, Refreshed, Touched,
           Enrolled, Installed, Matches, Forward, Unique, Counted;
      ghost var was := mem;
      var c0 := cfg;
      PartsOf();
      if v == [] {
        NoChains();
      }
      var q, dir, mid := Lookup(id, now, None);
      AgedKeeps(was, mid, now);
      if q != 0 {
        RefreshTouches(c0, now, mid, q, id, dir, None);
        FoundIff(was, mid, id, now);
        FoundEffect(was, mid, mem, q, id, now);
        AliveRefreshed(was, mid, mem, q, id, dir, now, c0, cfg);
        return 0;
      }
      NoneMatch(id);
      ShrunkSmaller(was, mem);
      r := InstallNew(rule, cmd, id, now, addr, addr', was);
    }

    lemma PartsOf()
      requires TableOk(mem, v)
      ensures Counted(mem) && Unique(mem)
    {
    }

    lemma NoChains()
      requires Valid() && v == []
      ensures dynCount == 0
    {
      NoneWithout(0);
    }

    lemma NoneMatch(id: FlowId)
      requires forall p :: p in mem ==> !Matches(mem[p], id)
      ensures NoMatchIn(mem, id)
    {
    }
  }

  /** A first kept state that is reported as installed and is not there: three chains are refused. */
  method RefusedFirst(cfg: Config, id: FlowId, now: int) returns (t: Table, r: nat)
    ensures fresh(t) && r == 0 && NoMatchIn(t.mem, id)
  {
    hide TableOk, Within, Hash, BadSize;
    t := new Table(4096, cfg);
    t.SetBuckets(3);
    ThreeIsBad();
    r := t.Install(1, DoKeepState, id, now, 2, 3);
  }

  /** Another one: without a lifetime for new sessions the lookup that is to set it removes the session. */
  method NoLifetime(id: FlowId, now: int) returns (t: Table, r: nat)
    ensures fresh(t) && r == 0 && NoMatchIn(t.mem, id)
  {
    hide TableOk, Within, Hash, BadSize;
    t := new Table(4096, Config(0, 300, 1, 1, 10, 5, 5));
    r := t.Install(1, DoKeepState, id, now, 2, 3);
  }
}
