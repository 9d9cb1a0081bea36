/** One broadcast DATA packet without acknowledgement request, in a network
    where everything else goes on at will: it is handled at most once per node,
    it dies out, and if nothing is lost it reaches exactly the connected nodes. */
module Flood {
  import opened Packets
  import opened Ordered
  import opened Sessions
  import opened Nodes
  import opened Effects
  import opened AckLedger
  import opened Counting
  import opened Network

  // ---------- counting ----------

  lemma CountRemoved<T>(s: seq<T>, i: nat, P: T -> bool)
    requires i < |s|
    ensures Count(Removed(s, i), P) + (if P(s[i]) then 1 else 0) == Count(s, P)
  {
    hide Count;
    var a, x, b := s[..i], s[i], s[i + 1..];
    assert s == (a + [x]) + b;
    CountAppend(a + [x], b, P);
    CountOne(a, x, P);
    CountAppend(a, b, P);
  }

  function HasId(p: U32): Frame -> bool {
    (f: Frame) => f.id == p
  }

  function CopyOf(p: U32): Copy -> bool {
    (c: Copy) => c.frame.id == p
  }

  function HandledAt(q: U32, p: U32): Copy -> bool {
    (c: Copy) => c.at == q && c.frame.id == p
  }

  function Announces(p: U32): Note -> bool {
    (x: Note) => x.BleBroadcast? && x.id == p
  }

  // ---------- the flooded packet ----------

  datatype Packet = Packet(origin: U32, id: U32, flags: U8, data: seq<U8>)

  predicate Floodable(k: Packet) {
    k.id != 0 && k.flags < 128 && !AsksAck(k.flags)
  }

  predicate Flooding(k: Packet, f: Frame) {
    && f.id == k.id && f.origin == k.origin && f.dest == BROADCAST_ADDR && f.flags == k.flags
    && f.body == Data(BROADCAST_ADDR, k.data)
  }

  /** The packet ID is fresh in the inputs of this step. */
  ghost predicate FreshInputs(l: Label, p: U32) {
    && (Acts(l) ==> forall i: nat :: l.env.random(i) != p)
    && (l.Invoke? && (l.call.CallData? || l.call.CallUserMsg?) ==> l.call.id != p)
  }

  ghost predicate Untouched(n: Node, p: U32) {
    Clean(n, p) && p !in n.acks
  }

  // ---------- steps that do not deliver the packet ----------

  /** The node neither sees, sends nor announces the packet. */
  ghost predicate Bystands(n: Node, n': Node, p: U32) {
    && Untouched(n', p)
    && (p in n'.seen <==> p in n.seen)
    && n.io.air <= n'.io.air && (forall i | |n.io.air| <= i < |n'.io.air| :: n'.io.air[i].id != p)
    && n.io.notes <= n'.io.notes && (forall i | |n.io.notes| <= i < |n'.io.notes| :: !Announces(p)(n'.io.notes[i]))
  }

  lemma EmitsBystands(c: Ctx, n: Node, m: Node, n': Node)
    requires Emits(c, m, n') && Untouched(n, c.watch)
    requires c.cause.Expiry? || c.cause.Call? || c.cause.frame.id != c.watch
    requires m.acks == n.acks && m.io.air == n.io.air && n.io.notes <= m.io.notes
    requires forall i | |n.io.notes| <= i < |m.io.notes| :: m.io.notes[i].GatewayState?
    requires Clean(m, c.watch) && (c.watch in m.seen <==> c.watch in n.seen)
    ensures Bystands(n, n', c.watch)
  {
    hide Clean, Ledger, Just, Onward;
    forall i | |n.io.air| <= i < |n'.io.air| ensures n'.io.air[i].id != c.watch {
      assert Fine(c, m, n'.io.air[i]);
      OnwardKeepsId(c, n'.io.air[i]);
    }
    if c.watch in n'.acks {
      OnwardKeepsId(c, n'.acks[c.watch].frame);
    }
    forall i | |n.io.notes| <= i < |n'.io.notes| ensures !Announces(c.watch)(n'.io.notes[i]) {
      if i < |m.io.notes| {
        assert n'.io.notes[i] == m.io.notes[i];
      } else {
        assert Mild(c, n'.io.notes[i]);
      }
    }
  }

  lemma OnwardKeepsId(c: Ctx, e: Frame)
    ensures Continues(c, e) ==> e.id == c.cause.frame.id
  {
  }

  lemma ReceiveBystands(n: Node, f: Frame, p: U32)
    requires Untouched(n, p) && f.id != p
    ensures Bystands(n, HandlePacket(n, f), p)
  {
    hide Dispatch, Learn, Ledger;
    var m := n.(seen := n.seen + {f.id});
    if Accepts(n, f) && f.body.Ack? {
      AckBystands(n, f, p);
    } else if Accepts(n, f) {
      LearnOnlyLearns(m, f);
      DispatchEmits(m, f, p);
      assert Clean(m, p);
      assert Clean(Learn(m, f), p);
      hide Clean, NewAir, NewAcks, NewNotes, Undisturbed;
      EmitsBystands(Hearing(m, f, p), n, Learn(m, f), Dispatch(m, f));
    }
  }

  lemma AckBystands(n: Node, f: Frame, p: U32)
    requires Untouched(n, p) && f.id != p && f.body.Ack? && Accepts(n, f)
    ensures Bystands(n, HandlePacket(n, f), p)
  {
  }

  lemma ApiBystands(n: Node, call: ApiCall, p: U32)
    requires Untouched(n, p)
    requires call.CallData? || call.CallUserMsg? ==> call.id != p
    ensures Bystands(n, Api(n, call), p)
  {
    var c := Ctx(n.me, n.routes, Call, p, p);
    ApiEmits(c, n, call);
    hide Api;
    EmitsBystands(c, n, n, Api(n, call));
  }

  lemma BystandsTrans(n: Node, m: Node, r: Node, p: U32)
    requires Bystands(n, m, p) && Bystands(m, r, p)
    ensures Bystands(n, r, p)
  {
    hide Untouched, Announces;
    forall i | |n.io.air| <= i < |r.io.air| ensures r.io.air[i].id != p {
      if i < |m.io.air| {
        assert r.io.air[i] == m.io.air[i];
      }
    }
    forall i | |n.io.notes| <= i < |r.io.notes| ensures !Announces(p)(r.io.notes[i]) {
      if i < |m.io.notes| {
        assert r.io.notes[i] == m.io.notes[i];
      }
    }
  }

  lemma SweepOneBystands(n: Node, id: U32, p: U32)
    requires Untouched(n, p) && Keyed(n) && id in n.acks
    ensures Bystands(n, SweepOne(n, id), p) && Keyed(SweepOne(n, id))
  {
  }

  lemma {:induction false} SweepBystands(n: Node, ids: seq<U32>, p: U32)
    requires Untouched(n, p) && Keyed(n)
    ensures Bystands(n, Sweep(n, ids).node, p) && Keyed(Sweep(n, ids).node)
    decreases |ids|
  {
    hide SweepOne, Spent, Keyed;
    if ids != [] {
      SweepBystands(n, ids[..|ids| - 1], p);
      var m := Sweep(n, ids[..|ids| - 1]).node;
      if ids[|ids| - 1] in m.acks {
        SweepOneBystands(m, ids[|ids| - 1], p);
        BystandsTrans(n, m, SweepOne(m, ids[|ids| - 1]), p);
      }
    }
  }

  lemma ReportBystands(n: Node, id: U32, e: AckEntry, garbled: U32 -> U32, p: U32)
    requires Untouched(n, p)
    ensures Bystands(n, ReportExpired(n, id, e, garbled), p)
  {
    var f := Frame(e.frame.origin, n.me, e.frame.origin, Draw(n), 0, 0, Rerr(n.me, n.me, garbled(id), id));
    assert OnAir(f) == f && !AsksAck(f.flags) && f.id != p;
  }

  lemma {:induction false} ReportAllBystands(n: Node, es: seq<(U32, AckEntry)>, garbled: U32 -> U32, p: U32)
    requires Untouched(n, p)
    ensures Bystands(n, ReportAll(n, es, garbled), p)
    decreases |es|
  {
    hide ReportExpired, Clean;
    if es != [] {
      var m := ReportAll(n, es[..|es| - 1], garbled);
      ReportAllBystands(n, es[..|es| - 1], garbled, p);
      ReportBystands(m, es[|es| - 1].0, es[|es| - 1].1, garbled, p);
      BystandsTrans(n, m, ReportAll(n, es, garbled), p);
    }
  }

  lemma CleanupBystands(n: Node, garbled: U32 -> U32, p: U32)
    requires Untouched(n, p) && Keyed(n)
    ensures Bystands(n, CleanupAcks(n, garbled), p)
  {
    hide Untouched, Keyed;
    var s := Sweep(n, Ascending(n.acks.Keys));
    SweepBystands(n, Ascending(n.acks.Keys), p);
    assert Untouched(s.node, p);
    ReportAllBystands(s.node, s.expired, garbled, p);
    BystandsTrans(n, s.node, CleanupAcks(n, garbled), p);
  }

  // ---------- delivering the packet ----------

  /** What node n sends on when it first receives the packet. */
  function Relayed(k: Packet, n: Node, f: Frame): Frame {
    f.(dest := BROADCAST_ADDR, prev := n.me, hops := Inc8(f.hops))
  }

  lemma FloodableFlags(k: Packet)
    requires Floodable(k)
    ensures k.flags != REQ_ACK && ClearEnc(k.flags) == k.flags
  {
  }

  /** First receipt: announce once, send on at most once, remember the ID. */
  lemma FirstReceipt(k: Packet, n: Node, f: Frame)
    requires Floodable(k) && Flooding(k, f) && Untouched(n, k.id)
    requires f.prev != n.me && n.me != BROADCAST_ADDR && k.id !in n.seen
    ensures var r, g := HandlePacket(n, f), Relayed(k, n, f);
            && Accepts(n, f) && Flooding(k, g)
            && r.me == n.me && r.seen == n.seen + {k.id} && Untouched(r, k.id)
            && r.io.notes == n.io.notes + [BleBroadcast(k.data, k.id)]
            && r.io.air == n.io.air + (if !Oversize(f.body) && n.io.env.accepts(n.io.offered) then [g] else [])
  {
    FloodableFlags(k);
    hide AsksAck, ClearEnc, Oversize;
    var m := Tell(n.(seen := n.seen + {k.id}), BleBroadcast(k.data, k.id));
    assert OnAir(Relayed(k, n, f)) == Relayed(k, n, f);
    assert HandlePacket(n, f) == Transmit(m, Relayed(k, n, f));
  }

  ghost predicate Reached(t: Topology, a: U32, b: U32) {
    exists m: nat :: m >= 1 && Walk(t, a, b, m)
  }

  function SeenOnce(n: Node, p: U32): nat {
    if p in n.seen then 1 else 0
  }

  /** The node's books on the packet: announced as often as seen, sent at most once more by the origin. */
  ghost predicate FloodNode(k: Packet, q: U32, n: Node) {
    && Untouched(n, k.id)
    && Count(n.io.notes, Announces(k.id)) == SeenOnce(n, k.id)
    && Count(n.io.air, HasId(k.id)) <= SeenOnce(n, k.id) + if q == k.origin then 1 else 0
  }

  ghost predicate FloodCopy(t: Topology, k: Packet, c: Copy) {
    c.frame.id == k.id ==> Flooding(k, c.frame) && Reached(t, k.origin, c.at)
  }

  ghost predicate FloodState(t: Topology, k: Packet, s: Net) {
    && Placed(t, s)
    && (forall q | q in s.nodes :: FloodNode(k, q, s.nodes[q]))
    && (forall q | q in s.nodes && k.id in s.nodes[q].seen :: Reached(t, k.origin, q))
    && (forall i | 0 <= i < |s.flying| :: FloodCopy(t, k, s.flying[i]))
    && (forall q | q in s.nodes :: Count(s.ran, HandledAt(q, k.id)) == SeenOnce(s.nodes[q], k.id))
  }

  lemma ReachedSnoc(t: Topology, a: U32, b: U32, c: U32)
    requires Valid(t) && Reached(t, a, b) && Link(t, b, c)
    ensures Reached(t, a, c)
  {
    var m: nat :| m >= 1 && Walk(t, a, b, m);
    WalkSnoc(t, a, b, c, m);
  }

  lemma BystandsFloodNode(k: Packet, q: U32, n: Node, n': Node)
    requires FloodNode(k, q, n) && Bystands(n, n', k.id)
    ensures FloodNode(k, q, n')
  {
    hide Untouched;
    CountExtends(n.io.notes, n'.io.notes, Announces(k.id));
    CountExtends(n.io.air, n'.io.air, HasId(k.id));
  }

  lemma FirstReceiptFloodNode(k: Packet, q: U32, n: Node, f: Frame)
    requires Floodable(k) && Flooding(k, f) && FloodNode(k, q, n)
    requires f.prev != n.me && n.me != BROADCAST_ADDR && k.id !in n.seen
    ensures FloodNode(k, q, HandlePacket(n, f))
  {
    FirstReceipt(k, n, f);
    hide HandlePacket, Untouched, Oversize, Accepts;
    CountOne(n.io.notes, BleBroadcast(k.data, k.id), Announces(k.id));
    CountOne(n.io.air, Relayed(k, n, f), HasId(k.id));
    assert n.io.air + [] == n.io.air;
  }

  predicate DeliversFlood(s: Net, l: Label, p: U32) {
    l.Deliver? && l.i < |s.flying| && s.flying[l.i].frame.id == p
  }

  /** A step that does not deliver the packet leaves the acting node a bystander. */
  lemma ActBystands(t: Topology, s: Net, l: Label, p: U32)
    requires Placed(t, s) && Enabled(s, l) && Acts(l) && FreshInputs(l, p) && !DeliversFlood(s, l, p)
    requires Untouched(Before(s, l), p)
    ensures Bystands(Before(s, l), Result(s, l), p)
  {
    var n := Before(s, l);
    assert Keyed(n);
    hide Bystands, Untouched, Keyed, HandlePacket, Api, CleanupAcks;
    match l
    case Deliver(i, _) => ReceiveBystands(n, s.flying[i].frame, p);
    case Invoke(_, call, _) => ApiBystands(n, call, p);
    case AckTimer(_, _, garbled) => CleanupBystands(n, garbled, p);
  }

  lemma AwakeFloodNode(k: Packet, q: U32, n: Node, env: Env)
    requires FloodNode(k, q, n) && forall i: nat :: env.random(i) != k.id
    ensures FloodNode(k, q, Awake(n, env))
  {
  }

  /** The acting node keeps its books. */
  lemma ActFloodNode(t: Topology, k: Packet, s: Net, l: Label)
    requires Valid(t) && Floodable(k) && FloodState(t, k, s) && Enabled(s, l) && Acts(l) && FreshInputs(l, k.id)
    ensures var q, n, n' := Actor(s, l), Before(s, l), Result(s, l);
            && q in s.nodes && FloodNode(k, q, n')
            && (k.id in n'.seen <==> k.id in n.seen || DeliversFlood(s, l, k.id))
            && (forall f | JustAired(n, n', f) && f.id == k.id :: Flooding(k, f) && DeliversFlood(s, l, k.id))
  {
    var q, n := Actor(s, l), Before(s, l);
    AwakeFloodNode(k, q, s.nodes[q], l.env);
    hide FloodNode;
    if DeliversFlood(s, l, k.id) {
      DeliverFloodNode(t, k, s, l);
    } else {
      FloodNodeUntouched(k, q, n);
      ActBystands(t, s, l, k.id);
      hide Untouched, Result;
      BystandsFloodNode(k, q, n, Result(s, l));
    }
  }

  lemma FloodNodeUntouched(k: Packet, q: U32, n: Node)
    requires FloodNode(k, q, n)
    ensures Untouched(n, k.id)
  {
  }

  lemma DeliverFloodNode(t: Topology, k: Packet, s: Net, l: Label)
    requires Valid(t) && Floodable(k) && FloodState(t, k, s) && Enabled(s, l)
    requires DeliversFlood(s, l, k.id) && FloodNode(k, Actor(s, l), Before(s, l))
    ensures var q, n, n' := Actor(s, l), Before(s, l), Result(s, l);
            && FloodNode(k, q, n') && k.id in n'.seen
            && (forall f | JustAired(n, n', f) && f.id == k.id :: Flooding(k, f))
            && (k.id in n.seen ==> n' == n)
            && (Accepts(n, s.flying[l.i].frame) <==> k.id !in n.seen)
  {
    hide Reached, Count;
    var q, n, f := Actor(s, l), Before(s, l), s.flying[l.i].frame;
    assert FloodCopy(t, k, s.flying[l.i]);
    assert Link(t, f.prev, q) && q in t.nbrs;
    FloodNodeUntouched(k, q, n);
    hide FloodNode;
    if k.id !in n.seen {
      FirstReceiptFloodNode(k, q, n, f);
      FirstReceipt(k, n, f);
    }
  }

  // ---------- one step ----------

  lemma StepFloodNodes(t: Topology, k: Packet, s: Net, l: Label, q: U32)
    requires Valid(t) && Floodable(k) && FloodState(t, k, s) && Enabled(s, l) && FreshInputs(l, k.id) && q in s.nodes
    ensures var s' := Step(t, s, l);
            && q in s'.nodes && FloodNode(k, q, s'.nodes[q])
            && (k.id in s'.nodes[q].seen <==> k.id in s.nodes[q].seen || (DeliversFlood(s, l, k.id) && Actor(s, l) == q))
  {
    if Acts(l) {
      StepShape(t, s, l);
      ActFloodNode(t, k, s, l);
      hide Step, Result, FloodNode, Behaves;
    }
  }

  lemma StepFloodCopy(t: Topology, k: Packet, s: Net, l: Label, j: nat)
    requires Valid(t) && Floodable(k) && FloodState(t, k, s) && Enabled(s, l) && FreshInputs(l, k.id)
    requires j < |Step(t, s, l).flying|
    ensures FloodCopy(t, k, Step(t, s, l).flying[j])
  {
    hide Step, Result, FloodNode, Reached, Flooding, Count;
    StepFlying(t, s, l, j);
    var c := Step(t, s, l).flying[j];
    if c !in s.flying && c.frame.id == k.id {
      ActFloodNode(t, k, s, l);
      assert FloodCopy(t, k, s.flying[l.i]);
      ReachedSnoc(t, k.origin, Actor(s, l), c.at);
    }
  }

  lemma StepFloodRan(t: Topology, k: Packet, s: Net, l: Label, q: U32)
    requires Valid(t) && Floodable(k) && FloodState(t, k, s) && Enabled(s, l) && FreshInputs(l, k.id)
    requires q in s.nodes && q in Step(t, s, l).nodes
    ensures Count(Step(t, s, l).ran, HandledAt(q, k.id)) == SeenOnce(Step(t, s, l).nodes[q], k.id)
  {
    hide Step, Result, FloodNode, FloodCopy, Reached, Count;
    StepRan(t, s, l);
    StepFloodNodes(t, k, s, l, q);
    assert s.ran + [] == s.ran;
    if l.Deliver? {
      CountOne(s.ran, s.flying[l.i], HandledAt(q, k.id));
      if DeliversFlood(s, l, k.id) {
        AwakeFloodNode(k, Actor(s, l), s.nodes[Actor(s, l)], l.env);
        DeliverFloodNode(t, k, s, l);
      }
    }
  }

  lemma StepFlood(t: Topology, k: Packet, s: Net, l: Label)
    requires Valid(t) && Floodable(k) && FloodState(t, k, s) && Enabled(s, l) && FreshInputs(l, k.id)
    ensures FloodState(t, k, Step(t, s, l))
  {
    hide Step, FloodNode, Reached, Count, FloodCopy, Own;
    var s' := Step(t, s, l);
    StepPlaced(t, s, l);
    forall q | q in s'.nodes
      ensures FloodNode(k, q, s'.nodes[q])
      ensures k.id in s'.nodes[q].seen ==> Reached(t, k.origin, q)
      ensures Count(s'.ran, HandledAt(q, k.id)) == SeenOnce(s'.nodes[q], k.id)
    {
      StepFloodNodes(t, k, s, l, q);
      StepFloodRan(t, k, s, l, q);
      if k.id in s'.nodes[q].seen && k.id !in s.nodes[q].seen {
        FloodCopyReached(t, k, s.flying[l.i]);
      }
    }
    forall j | 0 <= j < |s'.flying| ensures FloodCopy(t, k, s'.flying[j]) {
      StepFloodCopy(t, k, s, l, j);
    }
  }

  lemma FloodCopyReached(t: Topology, k: Packet, c: Copy)
    requires FloodCopy(t, k, c) && c.frame.id == k.id
    ensures Reached(t, k.origin, c.at)
  {
  }

  // ---------- it dies out ----------

  function UnseenBy(s: Net, p: U32): set<U32> {
    set q | q in s.nodes && p !in s.nodes[q].seen
  }

  function Unseen(s: Net, p: U32): nat {
    |UnseenBy(s, p)|
  }

  /** Falls with every copy of the packet that is delivered or lost. */
  function Fuel(t: Topology, s: Net, p: U32): nat {
    Unseen(s, p) * (|t.nbrs| + 1) + Count(s.flying, CopyOf(p))
  }

  predicate Spends(s: Net, l: Label, p: U32) {
    match l
    case Deliver(i, _) => i < |s.flying| && s.flying[i].frame.id == p
    case Lose(i) => i < |s.flying| && s.flying[i].frame.id == p
    case _ => false
  }

  /** How many of the steps up to i delivered or lost a copy of the packet. */
  ghost function Spendings(ss: seq<Net>, ls: seq<Label>, p: U32, i: nat): nat
    requires i <= |ls| < |ss|
  {
    if i == 0 then 0 else Spendings(ss, ls, p, i - 1) + if Spends(ss[i - 1], ls[i - 1], p) then 1 else 0
  }

  lemma DegreeBound(t: Topology, a: U32)
    requires Valid(t) && a in t.nbrs
    ensures |t.nbrs[a]| <= |t.nbrs|
  {
    var xs := t.nbrs[a];
    forall i | 0 <= i < |xs| ensures xs[i] in t.nbrs {
      assert Link(t, a, xs[i]);
    }
    DistinctFits(xs, t.nbrs.Keys);
  }

  lemma {:induction false} DistinctFits(xs: seq<U32>, all: set<U32>)
    requires forall i | 0 <= i < |xs| :: xs[i] in all
    requires forall i, j | 0 <= i < j < |xs| :: xs[i] != xs[j]
    ensures |xs| <= |all|
    decreases |xs|
  {
    if xs != [] {
      var k := |xs| - 1;
      DistinctFits(xs[..k], all - {xs[k]});
    }
  }

  /** Copies of one frame count once per neighbour; copies of other frames do not count. */
  lemma {:induction false} CopiesCount(nbrs: seq<U32>, fs: seq<Frame>, p: U32)
    ensures Count(Copies(nbrs, fs), CopyOf(p)) <= |nbrs| * Count(fs, HasId(p))
    decreases |fs|
  {
    if fs != [] {
      var k := |fs| - 1;
      CopiesCount(nbrs, fs[..k], p);
      CountAppend(Copies(nbrs, fs[..k]), Heard(nbrs, fs[k]), CopyOf(p));
      if fs[k].id == p {
        CountBound(Heard(nbrs, fs[k]), CopyOf(p));
        Distribute(|nbrs|, Count(fs[..k], HasId(p)));
      } else {
        CountNone(Heard(nbrs, fs[k]), CopyOf(p));
      }
    }
  }

  lemma Distribute(a: nat, b: nat)
    ensures a * (b + 1) == a * b + a
  {
  }

  lemma UnseenStep(s: Net, s': Net, p: U32, q: U32)
    requires s'.nodes.Keys == s.nodes.Keys && q in s.nodes
    requires forall x | x in s.nodes && x != q :: p in s'.nodes[x].seen <==> p in s.nodes[x].seen
    requires p in s.nodes[q].seen ==> p in s'.nodes[q].seen
    ensures Unseen(s', p) + (if p in s'.nodes[q].seen && p !in s.nodes[q].seen then 1 else 0) == Unseen(s, p)
  {
    if p in s'.nodes[q].seen && p !in s.nodes[q].seen {
      assert UnseenBy(s, p) == UnseenBy(s', p) + {q};
    } else {
      assert UnseenBy(s, p) == UnseenBy(s', p);
    }
  }

  lemma NewFramesCount(n: Node, n': Node, p: U32)
    requires n.io.air <= n'.io.air
    ensures Count(NewFrames(n, n'), HasId(p)) + Count(n.io.air, HasId(p)) == Count(n'.io.air, HasId(p))
  {
    assert n'.io.air == n.io.air + NewFrames(n, n');
    CountAppend(n.io.air, NewFrames(n, n'), HasId(p));
  }

  /** Only a first receipt puts the packet on the air, and then once. */
  lemma ActAirs(t: Topology, k: Packet, s: Net, l: Label)
    requires Valid(t) && Floodable(k) && FloodState(t, k, s) && Enabled(s, l) && Acts(l) && FreshInputs(l, k.id)
    ensures var n, n' := s.nodes[Actor(s, l)], Result(s, l);
            Count(NewFrames(n, n'), HasId(k.id)) <= (if k.id in n'.seen && k.id !in n.seen then 1 else 0)
  {
    hide Count, FloodNode, FloodCopy, Reached, Behaves;
    StepShape(t, s, l);
    BehavesAir(ActContext(s, l), Before(s, l), Result(s, l));
    var q, n, n' := Actor(s, l), Before(s, l), Result(s, l);
    NewFramesCount(n, n', k.id);
    assert NewFrames(s.nodes[q], n') == NewFrames(n, n');
    if DeliversFlood(s, l, k.id) {
      AwakeFloodNode(k, q, s.nodes[q], l.env);
      DeliverFloodNode(t, k, s, l);
      if k.id !in n.seen {
        FloodNodeUntouched(k, q, n);
        assert FloodCopy(t, k, s.flying[l.i]);
        FirstAirs(t, k, s, l);
      }
    } else {
      AwakeFloodNode(k, q, s.nodes[q], l.env);
      FloodNodeUntouched(k, q, n);
      ActBystands(t, s, l, k.id);
      hide Result, Untouched;
      CountExtends(n.io.air, n'.io.air, HasId(k.id));
    }
  }

  lemma BehavesAir(c: Ctx, n: Node, n': Node)
    requires Behaves(c, n, n')
    ensures n.io.air <= n'.io.air
  {
  }

  lemma FirstAirs(t: Topology, k: Packet, s: Net, l: Label)
    requires Valid(t) && Floodable(k) && FloodState(t, k, s) && Enabled(s, l) && DeliversFlood(s, l, k.id)
    requires Untouched(Before(s, l), k.id) && k.id !in Before(s, l).seen
    ensures var n, f, n' := Before(s, l), s.flying[l.i].frame, Result(s, l);
            && Count(n'.io.air, HasId(k.id)) <= Count(n.io.air, HasId(k.id)) + 1
            && (!Oversize(f.body) && n.io.env.accepts(n.io.offered) ==> n'.io.air == n.io.air + [Relayed(k, n, f)])
  {
    hide Count, FloodNode, Reached;
    var n, f := Before(s, l), s.flying[l.i].frame;
    assert FloodCopy(t, k, s.flying[l.i]);
    assert Link(t, f.prev, Actor(s, l)) && Actor(s, l) in t.nbrs;
    FirstReceipt(k, n, f);
    CountOne(n.io.air, Relayed(k, n, f), HasId(k.id));
    assert n.io.air + [] == n.io.air;
  }

  lemma ConsumedCount(s: Net, l: Label, p: U32)
    requires Enabled(s, l)
    ensures Count(Consumed(s, l), CopyOf(p)) + (if Spends(s, l, p) then 1 else 0) == Count(s.flying, CopyOf(p))
  {
    hide Count, Removed;
    match l
    case Deliver(i, _) => CountRemoved(s.flying, i, CopyOf(p));
    case Lose(i) => CountRemoved(s.flying, i, CopyOf(p));
    case _ =>
  }

  /** Every delivery or loss of a copy of the packet burns fuel; nothing else adds any. */
  lemma StepFuel(t: Topology, k: Packet, s: Net, l: Label)
    requires Valid(t) && Floodable(k) && FloodState(t, k, s) && Enabled(s, l) && FreshInputs(l, k.id)
    ensures Fuel(t, Step(t, s, l), k.id) + (if Spends(s, l, k.id) then 1 else 0) <= Fuel(t, s, k.id)
  {
    hide Count, FloodNode, FloodCopy, Reached, Behaves, Result, Unseen, Consumed, Spends;
    ConsumedCount(s, l, k.id);
    if Acts(l) {
      StepShape(t, s, l);
      ActAirs(t, k, s, l);
      ActFloodNode(t, k, s, l);
      ActFuel(t, s, Step(t, s, l), Actor(s, l), Result(s, l), Consumed(s, l), k.id);
    } else {
      LoseFuel(t, s, l, k.id);
    }
  }

  lemma LoseFuel(t: Topology, s: Net, l: Label, p: U32)
    requires Enabled(s, l) && l.Lose?
    ensures Step(t, s, l).flying == Consumed(s, l) && Unseen(Step(t, s, l), p) == Unseen(s, p)
  {
  }

  lemma ActFuel(t: Topology, s: Net, s': Net, q: U32, n': Node, kept: seq<Copy>, p: U32)
    requires Valid(t) && q in s.nodes && q in t.nbrs && s'.nodes == s.nodes[q := n']
    requires s'.flying == kept + Copies(t.nbrs[q], NewFrames(s.nodes[q], n'))
    requires p in s.nodes[q].seen ==> p in n'.seen
    requires Count(NewFrames(s.nodes[q], n'), HasId(p)) <= (if p in n'.seen && p !in s.nodes[q].seen then 1 else 0)
    ensures Fuel(t, s', p) <= Unseen(s, p) * (|t.nbrs| + 1) + Count(kept, CopyOf(p))
  {
    hide Count, Copies, Unseen, NewFrames;
    UnseenStep(s, s', p, q);
    DegreeBound(t, q);
    var fs := NewFrames(s.nodes[q], n');
    CopiesCount(t.nbrs[q], fs, p);
    CountAppend(kept, Copies(t.nbrs[q], fs), CopyOf(p));
    FuelArithmetic(Unseen(s', p), Unseen(s, p), |t.nbrs|, |t.nbrs[q]|, Count(fs, HasId(p)),
                   Count(Copies(t.nbrs[q], fs), CopyOf(p)));
  }

  lemma FuelArithmetic(after: nat, before: nat, n: nat, degree: nat, aired: nat, copies: nat)
    requires degree <= n && copies <= degree * aired && aired <= 1 && after + aired <= before
    ensures after * (n + 1) + copies <= before * (n + 1)
  {
    if aired == 1 {
      assert before * (n + 1) >= (after + 1) * (n + 1) == after * (n + 1) + n + 1;
    } else {
      assert copies == 0;
      assert before * (n + 1) >= after * (n + 1);
    }
  }
}
