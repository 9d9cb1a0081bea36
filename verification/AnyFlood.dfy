/** Broadcasts of every type: no node handles a packet ID twice, whatever it is; and
    a flood dies out even where nothing bounds its hops. */
module AnyFlood {
  import Ordered
  import opened Packets
  import opened Nodes
  import opened Effects
  import opened Counting
  import opened Network
  import opened Flood
  import FloodTheorems

  // ---------- the seen-ID set only grows ----------

  lemma DispatchSeen(n: Node, f: Frame)
    ensures Dispatch(n, f).seen == n.seen
  {
    if !f.body.Ack? {
      LearnOnlyLearns(n, f);
      DispatchEmits(n, f, 0);
      hide Dispatch, Learn, NewAir, NewAcks, NewNotes, Undisturbed, Ledger;
    }
  }

  lemma HandlePacketSeen(n: Node, f: Frame)
    ensures n.seen <= HandlePacket(n, f).seen
    ensures Accepts(n, f) ==> f.id !in n.seen && f.id in HandlePacket(n, f).seen
  {
    DispatchSeen(n.(seen := n.seen + {f.id}), f);
    hide Dispatch;
  }

  lemma ApiSeen(n: Node, call: ApiCall)
    ensures Api(n, call).seen == n.seen
  {
    ApiEmits(Ctx(n.me, n.routes, Call, if call.CallData? || call.CallUserMsg? then OtherThan(call.id) else 0, 0), n, call);
    hide Api, NewAir, NewAcks, NewNotes, Undisturbed, Ledger;
  }

  lemma {:induction false} SweepSeen(n: Node, ids: seq<U32>)
    ensures Sweep(n, ids).node.seen == n.seen
    decreases |ids|
  {
    if ids != [] {
      SweepSeen(n, ids[..|ids| - 1]);
    }
  }

  lemma {:induction false} ReportAllSeen(n: Node, es: seq<(U32, AckEntry)>, garbled: U32 -> U32)
    ensures ReportAll(n, es, garbled).seen == n.seen
    decreases |es|
  {
    if es != [] {
      ReportAllSeen(n, es[..|es| - 1], garbled);
    }
  }

  lemma ResultSeen(s: Net, l: Label)
    requires Enabled(s, l) && Acts(l)
    ensures s.nodes[Actor(s, l)].seen <= Result(s, l).seen
    ensures l.Deliver? && Accepts(Before(s, l), s.flying[l.i].frame) ==>
              s.flying[l.i].frame.id !in s.nodes[Actor(s, l)].seen && s.flying[l.i].frame.id in Result(s, l).seen
  {
    var n := Before(s, l);
    hide Accepts, HandlePacket, Api, Sweep, ReportAll, Ordered.Ascending;
    match l
    case Deliver(i, _) => HandlePacketSeen(n, s.flying[i].frame);
    case Invoke(_, call, _) => ApiSeen(n, call);
    case AckTimer(_, _, garbled) =>
      var w := Sweep(n, Ordered.Ascending(n.acks.Keys));
      SweepSeen(n, Ordered.Ascending(n.acks.Keys));
      ReportAllSeen(w.node, w.expired, garbled);
  }

  // ---------- nobody handles an ID twice ----------

  lemma StepHandled(t: Topology, s: Net, l: Label, q: U32, p: U32)
    requires Placed(t, s) && Enabled(s, l) && q in s.nodes && Count(s.ran, HandledAt(q, p)) <= SeenOnce(s.nodes[q], p)
    ensures var s' := Step(t, s, l); q in s'.nodes && Count(s'.ran, HandledAt(q, p)) <= SeenOnce(s'.nodes[q], p)
  {
    hide Count, Result, Behaves, Own, Accepts, Step;
    StepRan(t, s, l);
    assert s.ran + [] == s.ran;
    if Acts(l) {
      StepShape(t, s, l);
      ResultSeen(s, l);
      if l.Deliver? {
        CountOne(s.ran, s.flying[l.i], HandledAt(q, p));
      }
    } else {
      LoseNodes(t, s, l);
    }
  }

  lemma LoseNodes(t: Topology, s: Net, l: Label)
    requires Enabled(s, l) && l.Lose?
    ensures Step(t, s, l).nodes == s.nodes
  {
  }

  lemma {:induction false} HandledOrSeen(t: Topology, ss: seq<Net>, ls: seq<Label>, i: nat, q: U32, p: U32)
    requires Valid(t) && IsHistory(t, ss, ls) && i < |ss| && q in t.nbrs
    ensures q in ss[i].nodes && Count(ss[i].ran, HandledAt(q, p)) <= SeenOnce(ss[i].nodes[q], p)
  {
    hide Step, Enabled, IsHistory, Count, Placed;
    var env := HistoryStart(t, ss, ls);
    if i == 0 {
      assert Count([], HandledAt(q, p)) == 0 by {
        CountBound([], HandledAt(q, p));
      }
    } else {
      HandledOrSeen(t, ss, ls, i - 1, q, p);
      HistoryStep(t, ss, ls, i - 1);
      HistoryPlaced(t, ss, ls, i - 1);
      StepHandled(t, ss[i - 1], ls[i - 1], q, p);
    }
  }

  /** In every run, whatever is sent, lost or repeated, no node handles a packet ID more than once. */
  lemma HandledOnce(t: Topology, ss: seq<Net>, ls: seq<Label>, i: nat, q: U32, p: U32)
    requires Valid(t) && IsHistory(t, ss, ls) && i < |ss| && q in t.nbrs
    ensures Count(ss[i].ran, HandledAt(q, p)) <= 1
  {
    HandledOrSeen(t, ss, ls, i, q, p);
    hide Count;
  }

  // ---------- floods of every type die out ----------

  /** A frame that its receivers pass on to all their neighbours. */
  predicate Spreads(f: Frame) {
    f.dest == BROADCAST_ADDR && (f.body.Rreq? || f.body.Ureq? || f.body.Info? || (f.body.Data? && f.body.finalDest == BROADCAST_ADDR))
  }

  ghost predicate Spare(n: Node, p: U32) {
    Unstored(n, p) && p !in n.acks
  }

  /** Copies of p in flight are broadcasts, and no node holds p for sending again. */
  ghost predicate Floating(t: Topology, s: Net, p: U32) {
    && Placed(t, s)
    && (forall q | q in s.nodes :: Spare(s.nodes[q], p))
    && (forall i | 0 <= i < |s.flying| && s.flying[i].frame.id == p :: Spreads(s.flying[i].frame))
  }

  lemma TransmitGrows(n: Node, f: Frame)
    ensures n.io.air <= Transmit(n, f).io.air && |Transmit(n, f).io.air| <= |n.io.air| + 1
  {
  }

  lemma LearnAir(n: Node, f: Frame)
    ensures Learn(n, f).io.air == n.io.air
  {
    LearnOnlyLearns(n, f);
    hide Learn, Clean, Ledger;
  }

  lemma OriginateGrows(n: Node, dest: U32, origin: U32, body: Body)
    ensures var n' := Originate(n, dest, origin, body); n.io.air <= n'.io.air && |n'.io.air| <= |n.io.air| + 1
  {
    TransmitGrows(Drew(n), Frame(dest, n.me, origin, Draw(n), 0, 0, body));
    hide Transmit;
  }

  /** Whoever handles a request or a broadcast of its peers sends at most one frame. */
  lemma AskedOnce(n: Node, f: Frame)
    requires f.body.Rreq? || f.body.Ureq? || f.body.Info?
    ensures n.io.air <= Dispatch(n, f).io.air && |Dispatch(n, f).io.air| <= |n.io.air| + 1
  {
    hide Transmit, LearnInfo, LearnUreq, LearnRreq, Originate;
    LearnAir(n, f);
    var m := Learn(n, f);
    if f.body.Rreq? {
      var t := f.body.target;
      OriginateGrows(m, f.prev, f.origin, Rrep(m.me, 0));
      if t in m.routes {
        OriginateGrows(m, f.prev, f.origin, Rrep(t, m.routes[t].hops));
      }
      TransmitGrows(m, f.(prev := m.me, hops := Inc8(f.hops), dest := BROADCAST_ADDR));
    } else if f.body.Ureq? {
      var u := f.body.user;
      OriginateGrows(m, f.prev, f.origin, Urep(m.me, u, Inc8(f.hops)));
      if u in m.peers.gut && m.peers.gut[u] in m.routes {
        OriginateGrows(m, f.prev, f.origin, Urep(m.me, u, Add8(Inc8(f.hops), m.routes[m.peers.gut[u]].hops)));
      }
      TransmitGrows(m, f.(prev := m.me, hops := Inc8(f.hops)));
    } else {
      TransmitGrows(m, f.(prev := m.me, hops := Inc8(f.hops)));
    }
  }

  lemma AckAir(n: Node, f: Frame)
    requires forall k: nat :: n.io.env.random(k) != f.id
    ensures var a := if f.flags == REQ_ACK then SendAck(n, f.prev, f.id) else n;
            && a.me == n.me && n.io.air <= a.io.air
            && forall i | |n.io.air| <= i < |a.io.air| :: a.io.air[i].id != f.id
  {
  }

  lemma DataShape(n: Node, f: Frame)
    requires f.body.Data? && f.body.finalDest == BROADCAST_ADDR && n.me != BROADCAST_ADDR
    ensures var a := if f.flags == REQ_ACK then SendAck(n, f.prev, f.id) else n;
            a.me == n.me ==>
            Dispatch(n, f) == Transmit(Tell(a, BleBroadcast(f.body.data, f.id)), f.(prev := a.me, hops := Inc8(f.hops), dest := BROADCAST_ADDR))
  {
    hide SendAck, Transmit;
  }

  /** A DATA broadcast may also be acknowledged, under another ID. */
  lemma DataOnce(n: Node, f: Frame)
    requires f.body.Data? && f.body.finalDest == BROADCAST_ADDR && n.me != BROADCAST_ADDR
    requires forall k: nat :: n.io.env.random(k) != f.id
    ensures n.io.air <= Dispatch(n, f).io.air && Count(NewFrames(n, Dispatch(n, f)), HasId(f.id)) <= 1
  {
    hide SendAck, Transmit, Dispatch, Count;
    AckAir(n, f);
    DataShape(n, f);
    var a := if f.flags == REQ_ACK then SendAck(n, f.prev, f.id) else n;
    var b := Tell(a, BleBroadcast(f.body.data, f.id));
    TransmitGrows(b, f.(prev := a.me, hops := Inc8(f.hops), dest := BROADCAST_ADDR));
    AtMostOne(n.io.air, a.io.air, Dispatch(n, f).io.air, f.id);
  }

  lemma AtMostOne(a: seq<Frame>, b: seq<Frame>, c: seq<Frame>, p: U32)
    requires a <= b <= c && |c| <= |b| + 1 && forall i | |a| <= i < |b| :: b[i].id != p
    ensures Count(c[|a|..], HasId(p)) <= 1
  {
    hide Count;
    var xs, ys := b[|a|..], c[|b|..];
    assert c[|a|..] == xs + ys;
    CountAppend(xs, ys, HasId(p));
    CountNone(xs, HasId(p));
    CountBound(ys, HasId(p));
  }

  lemma DispatchOnce(n: Node, f: Frame)
    requires Spreads(f) && n.me != BROADCAST_ADDR && forall k: nat :: n.io.env.random(k) != f.id
    ensures n.io.air <= Dispatch(n, f).io.air && Count(NewFrames(n, Dispatch(n, f)), HasId(f.id)) <= 1
  {
    hide Dispatch, Count;
    if f.body.Data? {
      DataOnce(n, f);
    } else {
      AskedOnce(n, f);
      CountBound(NewFrames(n, Dispatch(n, f)), HasId(f.id));
    }
  }

  /** What a node holds and sends of p once it has handled a broadcast of p. */
  lemma DispatchSpreads(n: Node, f: Frame)
    requires Spreads(f) && Untouched(n, f.id)
    ensures var n' := Dispatch(n, f);
            && Untouched(n', f.id)
            && forall e | JustAired(n, n', e) && e.id == f.id :: Spreads(e)
  {
    hide Dispatch, Learn, Ledger, Unstored;
    LearnOnlyLearns(n, f);
    DispatchEmits(n, f, f.id);
    var c, n' := Hearing(n, f, f.id), Dispatch(n, f);
    assert Undisturbed(c, Learn(n, f));
    forall e | JustAired(n, n', e) && e.id == f.id ensures Spreads(e) {
      assert Fine(c, Learn(n, f), e);
      OnwardSpreads(c, f, e);
    }
    if f.id in n'.acks {
      OnwardSpreads(c, f, n'.acks[f.id].frame);
    }
  }

  lemma OnwardSpreads(c: Ctx, f: Frame, e: Frame)
    requires Spreads(f)
    ensures Onward(c, f, e) ==> Spreads(e)
  {
  }

  /** One delivery of a copy of p. */
  lemma ReceiptSpreads(n: Node, f: Frame)
    requires Spreads(f) && Untouched(n, f.id) && n.me != BROADCAST_ADDR
    ensures var n' := HandlePacket(n, f);
            && Untouched(n', f.id) && n.io.air <= n'.io.air
            && (forall e | JustAired(n, n', e) && e.id == f.id :: Spreads(e))
            && Count(NewFrames(n, n'), HasId(f.id)) <= (if f.id in n'.seen && f.id !in n.seen then 1 else 0)
  {
    hide Dispatch, Untouched, Count, Spreads;
    var m := n.(seen := n.seen + {f.id});
    HandlePacketSeen(n, f);
    SameStore(n, m, f.id);
    if Accepts(n, f) {
      DispatchSpreads(m, f);
      UntouchedDraws(n, f.id);
      DispatchOnce(m, f);
      assert HandlePacket(n, f) == Dispatch(m, f);
      hide HandlePacket;
      SameAir(n, m, Dispatch(m, f));
    } else {
      UntouchedDraws(n, f.id);
      assert HandlePacket(n, f).io == n.io;
      CountBound(NewFrames(n, HandlePacket(n, f)), HasId(f.id));
    }
  }

  lemma SameAir(n: Node, m: Node, n': Node)
    requires m.io == n.io
    ensures NewFrames(n, n') == NewFrames(m, n')
    ensures forall e :: JustAired(n, n', e) <==> JustAired(m, n', e)
  {
  }

  lemma UntouchedDraws(n: Node, p: U32)
    requires Untouched(n, p)
    ensures p !in n.acks && forall k: nat :: n.io.env.random(k) != p
  {
  }

  lemma SameStore(n: Node, m: Node, p: U32)
    requires Untouched(n, p) && m.bufs == n.bufs && m.users == n.users && m.acks == n.acks && m.io.env == n.io.env
    ensures Untouched(m, p)
  {
  }

  // ---------- one step ----------

  lemma AwakeUntouched(n: Node, env: Env, p: U32)
    requires Spare(n, p) && forall k: nat :: env.random(k) != p
    ensures Untouched(Awake(n, env), p)
  {
  }

  lemma UntouchedSpare(n: Node, p: U32)
    requires Untouched(n, p)
    ensures Spare(n, p)
  {
  }

  /** The acting node: what it holds and sends of p. */
  lemma ActSpreads(t: Topology, s: Net, l: Label, p: U32)
    requires Valid(t) && Floating(t, s, p) && Enabled(s, l) && Acts(l) && FreshInputs(l, p)
    ensures var n, n' := Before(s, l), Result(s, l);
            && Spare(n', p) && n.io.air <= n'.io.air
            && (forall e | JustAired(n, n', e) && e.id == p :: Spreads(e))
            && Count(NewFrames(n, n'), HasId(p)) <= (if p in n'.seen && p !in n.seen then 1 else 0)
  {
    hide Spare, Untouched, Count, Spreads, Bystands, HandlePacket, Own;
    var q, n := Actor(s, l), Before(s, l);
    AwakeUntouched(s.nodes[q], l.env, p);
    if DeliversFlood(s, l, p) {
      assert Own(s.nodes[q], q) && q in t.nbrs;
      OwnMe(s.nodes[q], q);
      ReceiptSpreads(n, s.flying[l.i].frame);
    } else {
      ActBystands(t, s, l, p);
      hide Result;
      BystandsAir(n, Result(s, l), p);
    }
    UntouchedSpare(Result(s, l), p);
  }

  lemma OwnMe(n: Node, q: U32)
    requires Own(n, q)
    ensures n.me == q
  {
  }

  lemma BystandsAir(n: Node, n': Node, p: U32)
    requires Bystands(n, n', p)
    ensures Untouched(n', p) && n.io.air <= n'.io.air
    ensures forall e | JustAired(n, n', e) :: e.id != p
    ensures Count(NewFrames(n, n'), HasId(p)) == 0
  {
    hide Untouched, Announces, Count;
    CountNone(NewFrames(n, n'), HasId(p));
  }

  lemma StepFloating(t: Topology, s: Net, l: Label, p: U32)
    requires Valid(t) && Floating(t, s, p) && Enabled(s, l) && FreshInputs(l, p)
    ensures Floating(t, Step(t, s, l), p)
  {
    hide Step, Result, Spare, Spreads, Count, Behaves, Own, JustAired;
    var s' := Step(t, s, l);
    StepPlaced(t, s, l);
    if Acts(l) {
      StepShape(t, s, l);
      ActSpreads(t, s, l, p);
    } else {
      LoseNodes(t, s, l);
    }
    forall j | 0 <= j < |s'.flying| && s'.flying[j].frame.id == p ensures Spreads(s'.flying[j].frame) {
      StepFlying(t, s, l, j);
    }
  }

  /** Whatever else happens, delivering or losing a copy burns fuel and nothing adds any. */
  lemma StepBurns(t: Topology, s: Net, l: Label, p: U32)
    requires Valid(t) && Floating(t, s, p) && Enabled(s, l) && FreshInputs(l, p)
    ensures Fuel(t, Step(t, s, l), p) + (if Spends(s, l, p) then 1 else 0) <= Fuel(t, s, p)
  {
    hide Count, Behaves, Result, Unseen, Consumed, Spends, Spare, Spreads, Own, JustAired;
    ConsumedCount(s, l, p);
    if Acts(l) {
      StepShape(t, s, l);
      ActSpreads(t, s, l, p);
      ResultSeen(s, l);
      var q, n' := Actor(s, l), Result(s, l);
      assert NewFrames(s.nodes[q], n') == NewFrames(Before(s, l), n');
      ActFuel(t, s, Step(t, s, l), q, n', Consumed(s, l), p);
    } else {
      LoseFuel(t, s, l, p);
    }
  }

  // ---------- whole runs ----------

  /** A run in which the ID is not used anew. */
  ghost predicate Unrepeated(ss: seq<Net>, ls: seq<Label>, p: U32, from: nat) {
    forall j | from <= j < |ls| :: FreshInputs(ls[j], p)
  }

  lemma RunStepAt(t: Topology, ss: seq<Net>, ls: seq<Label>, i: nat)
    requires IsRun(t, ss, ls) && i < |ls|
    ensures |ss| == |ls| + 1 && Enabled(ss[i], ls[i]) && ss[i + 1] == Step(t, ss[i], ls[i])
  {
    hide Step, Enabled;
  }

  /** Floods of every type die out: in a run of any length from step `from` on, each delivery and each loss of a
      copy of p is paid for by the fuel there was. */
  lemma {:induction false} FloodBurnsOut(t: Topology, ss: seq<Net>, ls: seq<Label>, p: U32, from: nat, i: nat)
    requires Valid(t) && IsRun(t, ss, ls) && from <= i <= |ls| && Floating(t, ss[from], p) && Unrepeated(ss, ls, p, from)
    ensures |ss| == |ls| + 1 && Floating(t, ss[i], p)
    ensures Spendings(ss, ls, p, i) - Spendings(ss, ls, p, from) + Fuel(t, ss[i], p) <= Fuel(t, ss[from], p)
    decreases i
  {
    hide Step, Enabled, Floating, Fuel, Spends, FreshInputs, IsRun;
    if i > from {
      FloodBurnsOut(t, ss, ls, p, from, i - 1);
      RunStepAt(t, ss, ls, i - 1);
      StepFloating(t, ss[i - 1], ls[i - 1], p);
      StepBurns(t, ss[i - 1], ls[i - 1], p);
    } else {
      RunLength(t, ss, ls);
    }
  }

  lemma RunLength(t: Topology, ss: seq<Net>, ls: seq<Label>)
    requires IsRun(t, ss, ls)
    ensures |ss| == |ls| + 1
  {
  }

  // ---------- a request for a route or a user ----------

  /** The call asks the mesh for a route or for a user's home, and parks no item under the request's own ID. */
  predicate Requests(n: Node, call: ApiCall, p: U32) {
    match call
    case CallData(dest, _, id, _) => dest != BROADCAST_ADDR && dest !in n.routes && id != 0 && id != p
    case CallUserMsg(_, to, _, id, flags) => flags != TO_GATEWAY && to !in n.peers.gut && id != 0 && id != p
    case CallMove(_, oldNode) => oldNode !in n.routes
    case _ => false
  }

  /** Nobody holds or sends anything under ID p. */
  ghost predicate Unused(t: Topology, s: Net, p: U32) {
    && Placed(t, s)
    && (forall q | q in s.nodes :: Spare(s.nodes[q], p))
    && (forall i | 0 <= i < |s.flying| :: s.flying[i].frame.id != p)
  }

  ghost predicate Airs(n: Node, n': Node, p: U32) {
    && Spare(n', p) && n.io.air <= n'.io.air && |NewFrames(n, n')| <= 1
    && forall e | e in NewFrames(n, n') :: e.id == p && Spreads(e)
  }

  lemma BroadcastAirs(n: Node, body: Body)
    requires Spare(n, Draw(n)) && (body.Rreq? || body.Ureq?)
    ensures Airs(n, Originate(n, BROADCAST_ADDR, n.me, body), Draw(n))
  {
    hide Oversize;
    var f := Frame(BROADCAST_ADDR, n.me, n.me, Draw(n), 0, 0, body);
    assert OnAir(f) == f;
  }

  /** What a call parks while it asks is not p. */
  lemma ParkedSpare(n: Node, call: ApiCall, p: U32) returns (m: Node, body: Body)
    requires Requests(n, call, p) && Spare(n, p)
    ensures (body.Rreq? || body.Ureq?) && Api(n, call) == Originate(m, BROADCAST_ADDR, m.me, body)
    ensures Spare(m, p) && m.io == n.io && m.me == n.me
  {
    hide Originate;
    match call
    case CallData(dest, data, id, _) =>
      m := n.(bufs := n.bufs.(dataBuf := n.bufs.dataBuf[dest := At(n.bufs.dataBuf, dest) + [PendingData(id, data)]]));
      body := Rreq(dest);
    case CallUserMsg(sender, to, message, id, _) =>
      m := n.(bufs := n.bufs.(msgBuf := n.bufs.msgBuf[to := At(n.bufs.msgBuf, to) + [PendingMsg(id, sender, message)]]));
      body := Ureq(to);
    case CallMove(user, oldNode) =>
      m := n.(bufs := n.bufs.(moveBuf := n.bufs.moveBuf[oldNode := At(n.bufs.moveBuf, oldNode) + [MoveReq(user, oldNode)]]));
      body := Rreq(oldNode);
  }

  lemma RequestAirs(n: Node, call: ApiCall, p: U32)
    requires Requests(n, call, p) && Draw(n) == p && Spare(n, p)
    ensures Airs(n, Api(n, call), p)
  {
    hide Api, Spare, Originate, Requests, Spreads;
    var m, body := ParkedSpare(n, call, p);
    BroadcastAirs(m, body);
  }

  /** The call launches a flood of ID p, which the random source gives it. */
  ghost predicate LaunchesRequest(s: Net, l: Label, p: U32) {
    l.Invoke? && Enabled(s, l) && Requests(Before(s, l), l.call, p) && Draw(Before(s, l)) == p
  }

  lemma LaunchFloats(t: Topology, s: Net, l: Label, p: U32)
    requires Valid(t) && Unused(t, s, p) && LaunchesRequest(s, l, p)
    ensures Floating(t, Step(t, s, l), p) && Fuel(t, Step(t, s, l), p) <= |t.nbrs| * (|t.nbrs| + 1) + |t.nbrs|
  {
    hide Step, Spare, Spreads, Count, Behaves, Own, JustAired, Requests, Api, Fuel, Copies, Draw;
    var q, n, n', s' := l.q, Before(s, l), Result(s, l), Step(t, s, l);
    StepPlaced(t, s, l);
    StepShape(t, s, l);
    AwakeSpare(s.nodes[q], l.env, p);
    RequestAirs(n, l.call, p);
    hide Result;
    var fs := NewFrames(s.nodes[q], n');
    assert fs == NewFrames(n, n');
    FloodTheorems.FirstFuel(t, s', s.flying, q, fs, p);
    forall j | 0 <= j < |s'.flying| && s'.flying[j].frame.id == p ensures Spreads(s'.flying[j].frame) {
      if j >= |s.flying| {
        CopiesHeard(t.nbrs[q], fs, j - |s.flying|);
      }
    }
  }

  lemma AwakeSpare(n: Node, env: Env, p: U32)
    requires Spare(n, p)
    ensures Spare(Awake(n, env), p)
  {
  }

  /** A request for a route or a user, which no hop limit bounds, dies out: however long the run, its copies are
      delivered or lost at most N(N+1)+N times. */
  lemma RequestDiesOut(t: Topology, ss: seq<Net>, ls: seq<Label>, p: U32, i: nat)
    requires Valid(t) && IsRun(t, ss, ls) && 1 <= i <= |ls| && |ss| == |ls| + 1
    requires Unused(t, ss[0], p) && LaunchesRequest(ss[0], ls[0], p) && Unrepeated(ss, ls, p, 1)
    ensures Spendings(ss, ls, p, i) + Fuel(t, ss[i], p) <= |t.nbrs| * (|t.nbrs| + 1) + |t.nbrs|
  {
    hide Step, Enabled, Floating, Fuel, Unused, IsRun, Unrepeated;
    RunStepAt(t, ss, ls, 0);
    LaunchFloats(t, ss[0], ls[0], p);
    FloodTheorems.LaunchSpendsNothing(ss, ls, p);
    FloodBurnsOut(t, ss, ls, p, 1, i);
  }
}
