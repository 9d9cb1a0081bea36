/** What one activation of a node may put on the air, into its ack buffer and
    on its notification log. Every network invariant rests on `Emits`. */
module Effects {
  import Ordered
  import opened Packets
  import opened Sessions
  import opened Nodes

  /** Why the node is running. */
  datatype Cause = Call | Received(frame: Frame) | Expiry

  /** Node, routing table while it sends, cause, one packet ID to watch and one to tally. */
  datatype Ctx = Ctx(me: U32, routes: Routes, cause: Cause, watch: U32, tally: U32)

  // ---------- shapes of sent frames ----------

  predicate Toward(c: Ctx, target: U32, e: Frame) {
    target in c.routes && e.dest == c.routes[target].nextHop
  }

  /** A frame the node originates. */
  predicate Started(c: Ctx, e: Frame) {
    && e.origin == c.me && e.hops == 0
    && match e.body
       case Rreq(_) => e.dest == BROADCAST_ADDR
       case Ureq(_) => e.dest == BROADCAST_ADDR
       case Info(_, _, _) => e.dest == BROADCAST_ADDR
       case Data(t, _) => (t == BROADCAST_ADDR && e.dest == BROADCAST_ADDR) || Toward(c, t, e)
       case UserMsg(_, _, t, _) => Toward(c, t, e)
       case MoveUser(_, t) => Toward(c, t, e)
       case _ => false
  }

  /** A received frame, passed on. */
  predicate Onward(c: Ctx, f: Frame, e: Frame) {
    && e.origin == f.origin && e.id == f.id && e.flags == ClearEnc(f.flags) && e.hops == Inc8(f.hops)
    && e.body == (if f.body.Rrep? then Rrep(f.body.target, Inc8(f.body.numHops)) else f.body)
    && match f.body
       case Rreq(_) => e.dest == BROADCAST_ADDR
       case Ureq(_) => e.dest == f.dest
       case Info(_, _, _) => e.dest == f.dest && e.hops < MAX_HOPS
       case Data(t, _) => if t == BROADCAST_ADDR then e.dest == BROADCAST_ADDR else t != c.me && Toward(c, t, e)
       case UserMsg(_, _, t, _) => t != c.me && Toward(c, t, e)
       case MoveUser(_, t) => t != c.me && Toward(c, t, e)
       case Ack(_) => false
       case _ => f.origin != c.me && Toward(c, f.origin, e)
  }

  predicate AckFor(c: Ctx, f: Frame, e: Frame) {
    e.body == Ack(f.id) && e.dest == f.prev && e.origin == c.me
  }

  /** The node reports that it has no route to the final node. */
  predicate Stuck(c: Ctx, f: Frame, target: U32, e: Frame) {
    && target != c.me && target !in c.routes
    && e.body == Rerr(c.me, c.me, target, f.id) && e.dest == f.origin && e.origin == f.origin
  }

  /** A new frame sent in answer to a received one. */
  predicate Answered(c: Ctx, f: Frame, e: Frame) {
    && e.hops == 0
    && match f.body
       case Rreq(t) =>
         && e.origin == f.origin && e.dest == f.prev && e.body.Rrep? && e.body.target == t
         && (if t == c.me then e.body.numHops == 0 else t in c.routes && e.body.numHops == c.routes[t].hops)
       case Ureq(u) =>
         && e.origin == f.origin && e.dest == f.prev
         && e.body.Urep? && e.body.destNode == c.me && e.body.user == u
       case Data(t, _) =>
         || (f.flags == REQ_ACK && AckFor(c, f, e))
         || (t != BROADCAST_ADDR && Stuck(c, f, t, e))
       case UserMsg(_, u, t, _) =>
         || ((f.flags == REQ_ACK || f.flags == ENC_ACK) && AckFor(c, f, e))
         || Stuck(c, f, t, e)
         || (t == c.me && e.body == Uerr(u, c.me, f.id) && e.dest == f.prev && e.origin == f.origin)
       case _ => false
  }

  predicate Continues(c: Ctx, e: Frame) {
    c.cause.Received? && Onward(c, c.cause.frame, e)
  }

  /** Every way a frame can come to be sent. */
  predicate Just(c: Ctx, e: Frame) {
    && e.prev == c.me
    && match c.cause
       case Call => Started(c, e)
       case Received(f) => Started(c, e) || Onward(c, f, e) || Answered(c, f, e)
       case Expiry => e.body.Rerr? && e.body.reporter == e.body.broken == c.me && e.dest == e.origin
  }

  // ---------- node predicates carried along ----------

  /** The watched ID is in no pending buffer or inbox. */
  ghost predicate Unstored(n: Node, p: U32) {
    && (forall d, i | d in n.bufs.dataBuf && 0 <= i < |n.bufs.dataBuf[d]| :: n.bufs.dataBuf[d][i].id != p)
    && (forall d, i | d in n.bufs.msgBuf && 0 <= i < |n.bufs.msgBuf[d]| :: n.bufs.msgBuf[d][i].id != p)
    && (forall d, i | d in n.bufs.routeBuf && 0 <= i < |n.bufs.routeBuf[d]| :: n.bufs.routeBuf[d][i].id != p)
    && (forall u, i | u in n.users.users && 0 <= i < |n.users.users[u].inbox| :: n.users.users[u].inbox[i].id != p)
  }

  /** Nor is it ever drawn. */
  ghost predicate Clean(n: Node, p: U32) {
    (forall k: nat :: n.io.env.random(k) != p) && Unstored(n, p)
  }

  ghost predicate Undisturbed(c: Ctx, n: Node) {
    Clean(n, c.watch) && (c.cause.Received? && c.cause.frame.id == c.watch ==> !c.cause.frame.body.UserMsg?)
  }

  /** A frame that is remembered until acknowledged. */
  predicate Asks(f: Frame, p: U32) {
    f.id == p && f.dest != BROADCAST_ADDR && AsksAck(f.flags)
  }

  function CountAsk(s: seq<Frame>, p: U32): nat
    decreases |s|
  {
    if s == [] then 0 else CountAsk(s[..|s| - 1], p) + if Asks(s[|s| - 1], p) then 1 else 0
  }

  /** Outcomes the client has been told for a packet. */
  function Outcomes(s: seq<Note>, p: U32): nat
    decreases |s|
  {
    if s == [] then 0
    else Outcomes(s[..|s| - 1], p) + if s[|s| - 1] == BleAck(p) || s[|s| - 1] == BleAckFailure(p) then 1 else 0
  }

  /** Each hand-off that asks for an acknowledgement accounts for at most one
      pending entry or outcome, and for at most four sends. */
  ghost predicate Ledger(n: Node, p: U32) {
    && Outcomes(n.io.notes, p) + (if p in n.acks then 1 else 0) <= CountAsk(n.io.handed, p)
    && (p in n.acks ==> Asks(n.acks[p].frame, p) && n.acks[p].attempts <= MAX_RETRANS)
    && CountAsk(n.io.air, p) + (if p in n.acks then MAX_RETRANS - n.acks[p].attempts else 0) <= 4 * CountAsk(n.io.handed, p)
  }

  // ---------- the effect of an activation ----------

  ghost predicate Fine(c: Ctx, n: Node, e: Frame) {
    Just(c, e) && (Undisturbed(c, n) && e.id == c.watch ==> Continues(c, e))
  }

  ghost predicate NewAir(c: Ctx, n: Node, n': Node) {
    n.io.air <= n'.io.air && forall i | |n.io.air| <= i < |n'.io.air| :: Fine(c, n, n'.io.air[i])
  }

  /** Nothing remembered is forgotten; what is new belongs to a frame just sent. */
  ghost predicate NewAcks(c: Ctx, n: Node, n': Node) {
    && n.acks.Keys <= n'.acks.Keys
    && (forall k | k in n'.acks ::
          || (k in n.acks && n'.acks[k] == n.acks[k])
          || (n'.acks[k].frame.id == k && n'.acks[k].frame.dest != BROADCAST_ADDR && Fine(c, n, n'.acks[k].frame)))
  }

  predicate Mild(c: Ctx, note: Note) {
    match note
    case BleAck(_) => false
    case BleAckFailure(_) => c.cause.Expiry?
    case BleBroadcast(_, id) => c.cause.Received? && c.cause.frame.id == id
    case _ => true
  }

  ghost predicate NewNotes(c: Ctx, n: Node, n': Node) {
    n.io.notes <= n'.io.notes && forall i | |n.io.notes| <= i < |n'.io.notes| :: Mild(c, n'.io.notes[i])
  }

  ghost predicate Steady(c: Ctx, n: Node, n': Node) {
    && n.me == n'.me == c.me && n.routes == n'.routes == c.routes
    && n.io.env == n'.io.env && n.seen == n'.seen && n.peers == n'.peers
  }

  ghost predicate Emits(c: Ctx, n: Node, n': Node) {
    && Steady(c, n, n')
    && NewAir(c, n, n')
    && NewAcks(c, n, n')
    && NewNotes(c, n, n')
    && (Undisturbed(c, n) ==> Undisturbed(c, n'))
    && (Ledger(n, c.tally) ==> Ledger(n', c.tally))
  }

  lemma EmitsTrans(c: Ctx, n: Node, m: Node, r: Node)
    requires Emits(c, n, m) && Emits(c, m, r)
    ensures Emits(c, n, r)
  {
    hide Undisturbed, Ledger, Just, Continues, Mild;
    forall i | |n.io.air| <= i < |r.io.air| ensures Fine(c, n, r.io.air[i]) {
      if i < |m.io.air| {
        assert r.io.air[i] == m.io.air[i];
      } else {
        assert Fine(c, m, r.io.air[i]);
      }
    }
    forall i | |n.io.notes| <= i < |r.io.notes| ensures Mild(c, r.io.notes[i]) {
      if i < |m.io.notes| {
        assert r.io.notes[i] == m.io.notes[i];
      }
    }
    forall k | k in r.acks
      ensures || (k in n.acks && r.acks[k] == n.acks[k])
              || (r.acks[k].frame.id == k && r.acks[k].frame.dest != BROADCAST_ADDR && Fine(c, n, r.acks[k].frame))
    {
      if k in m.acks && r.acks[k] == m.acks[k] {
      } else {
        assert Fine(c, m, r.acks[k].frame);
      }
    }
  }

  lemma CountSnoc(s: seq<Frame>, f: Frame, p: U32)
    ensures CountAsk(s + [f], p) == CountAsk(s, p) + if Asks(f, p) then 1 else 0
  {
    assert (s + [f])[..|s|] == s;
  }

  lemma OutcomesSnoc(s: seq<Note>, x: Note, p: U32)
    ensures Outcomes(s + [x], p) == Outcomes(s, p) + if x == BleAck(p) || x == BleAckFailure(p) then 1 else 0
  {
    assert (s + [x])[..|s|] == s;
  }

  // ---------- senders ----------

  lemma ClearEncKeepsAsk(flags: U8)
    ensures AsksAck(ClearEnc(flags)) == AsksAck(flags)
  {
  }

  lemma TransmitLedger(n: Node, f: Frame, p: U32)
    requires Ledger(n, p)
    ensures Ledger(Transmit(n, f), p)
  {
    hide AsksAck, ClearEnc, Oversize, CountAsk, Outcomes;
    CountSnoc(n.io.handed, f, p);
    CountSnoc(n.io.air, OnAir(f), p);
    ClearEncKeepsAsk(f.flags);
  }

  lemma TransmitAir(c: Ctx, n: Node, n1: Node, f: Frame)
    requires NewAir(c, n, n1) && NewAcks(c, n, n1) && Fine(c, n, OnAir(f))
    ensures NewAir(c, n, Transmit(n1, f)) && NewAcks(c, n, Transmit(n1, f))
  {
    hide AsksAck, ClearEnc, Oversize, Fine;
  }

  lemma TransmitUndisturbed(c: Ctx, n: Node, f: Frame)
    requires Undisturbed(c, n)
    ensures Undisturbed(c, Transmit(n, f))
  {
  }

  /** One more frame after an activation prefix that behaved. */
  lemma TransmitEmits(c: Ctx, n: Node, n1: Node, f: Frame)
    requires Emits(c, n, n1)
    requires Fine(c, n, OnAir(f))
    ensures Emits(c, n, Transmit(n1, f))
  {
    hide AsksAck, ClearEnc, Oversize, Ledger, Undisturbed, Fine, Mild;
    if Ledger(n, c.tally) {
      TransmitLedger(n1, f, c.tally);
    }
    if Undisturbed(c, n) {
      TransmitUndisturbed(c, n1, f);
    }
    TransmitAir(c, n, n1, f);
  }

  /** A change that touches neither the air, the logs nor the ack buffer. */
  lemma SameEmits(c: Ctx, n: Node, n1: Node, n': Node)
    requires Emits(c, n, n1) && Steady(c, n1, n')
    requires n'.io.air == n1.io.air && n'.io.handed == n1.io.handed && n'.io.notes == n1.io.notes && n'.acks == n1.acks
    requires Undisturbed(c, n) ==> Undisturbed(c, n')
    ensures Emits(c, n, n')
  {
    hide Undisturbed, Fine, Mild;
  }

  lemma NothingEmits(c: Ctx, n: Node)
    requires Steady(c, n, n)
    ensures Emits(c, n, n)
  {
  }

  lemma DrawEmits(c: Ctx, n: Node, n1: Node)
    requires Emits(c, n, n1)
    ensures Emits(c, n, Drew(n1))
    ensures Undisturbed(c, n) ==> Draw(n1) != c.watch
  {
    SameEmits(c, n, n1, Drew(n1));
  }

  lemma OriginateEmits(c: Ctx, n: Node, n1: Node, dest: U32, origin: U32, body: Body)
    requires Emits(c, n, n1)
    requires Just(c, Frame(dest, c.me, origin, Draw(n1), 0, 0, body))
    ensures Emits(c, n, Originate(n1, dest, origin, body))
  {
    var f := Frame(dest, c.me, origin, Draw(n1), 0, 0, body);
    DrawEmits(c, n, n1);
    assert OnAir(f) == f;
    hide Undisturbed, Just, Continues;
    TransmitEmits(c, n, Drew(n1), f);
  }

  lemma TellEmits(c: Ctx, n: Node, n1: Node, note: Note)
    requires Emits(c, n, n1) && Mild(c, note)
    requires !note.BleAckFailure?
    ensures Emits(c, n, Tell(n1, note))
  {
    OutcomesSnoc(n1.io.notes, note, c.tally);
    assert Emits(c, n1, Tell(n1, note));
    EmitsTrans(c, n, n1, Tell(n1, note));
  }

  /** Ask the mesh for a route or a user. */
  lemma AskEmits(c: Ctx, n: Node, n1: Node, body: Body)
    requires Emits(c, n, n1) && !c.cause.Expiry? && (body.Rreq? || body.Ureq?)
    ensures Emits(c, n, Originate(n1, BROADCAST_ADDR, n1.me, body))
  {
    OriginateEmits(c, n, n1, BROADCAST_ADDR, n1.me, body);
  }

  lemma StartEmits(c: Ctx, n: Node, n1: Node, f: Frame)
    requires Emits(c, n, n1) && !c.cause.Expiry?
    requires f.prev == c.me && Started(c, f)
    requires Undisturbed(c, n) ==> f.id != c.watch
    ensures Emits(c, n, Transmit(n1, f))
  {
    assert Started(c, OnAir(f));
    TransmitEmits(c, n, n1, f);
  }

  /** The ID a send uses: the caller's, or a fresh draw. */
  lemma PickEmits(c: Ctx, n: Node, n1: Node, packetId: U32)
    requires Emits(c, n, n1)
    requires Undisturbed(c, n) ==> packetId != c.watch
    ensures Emits(c, n, if packetId == 0 then Drew(n1) else n1)
    ensures Undisturbed(c, n) ==> (if packetId == 0 then Draw(n1) else packetId) != c.watch
  {
    DrawEmits(c, n, n1);
  }

  lemma SendDataEmits(c: Ctx, n: Node, dest: U32, data: seq<U8>, packetId: U32, flags: U8)
    requires Steady(c, n, n) && c.cause.Call?
    requires Undisturbed(c, n) ==> packetId != c.watch
    ensures Emits(c, n, SendData(n, dest, data, packetId, flags))
  {
    var id := if packetId == 0 then Draw(n) else packetId;
    var n1 := if packetId == 0 then Drew(n) else n;
    PickEmits(c, n, n, packetId);
    if dest == BROADCAST_ADDR {
      StartEmits(c, n, n1, Frame(dest, n.me, n.me, id, flags, 0, Data(dest, data)));
    } else if dest in n.routes {
      StartEmits(c, n, n1, Frame(n.routes[dest].nextHop, n.me, n.me, id, flags, 0, Data(dest, data)));
    } else {
      var bufs := n1.bufs.(dataBuf := n1.bufs.dataBuf[dest := At(n1.bufs.dataBuf, dest) + [PendingData(id, data)]]);
      SameEmits(c, n, n1, n1.(bufs := bufs));
      AskEmits(c, n, n1.(bufs := bufs), Rreq(dest));
    }
  }

  lemma SendUserViaEmits(c: Ctx, n: Node, n1: Node, m: PendingUser, node: U32, flags: U8)
    requires Emits(c, n, n1) && !c.cause.Expiry?
    requires Undisturbed(c, n) ==> m.id != c.watch
    ensures Emits(c, n, SendUserVia(n1, m, node, flags))
  {
    if node !in n1.routes {
      var bufs := n1.bufs.(routeBuf := n1.bufs.routeBuf[node := At(n1.bufs.routeBuf, node) + [m]]);
      SameEmits(c, n, n1, n1.(bufs := bufs));
      AskEmits(c, n, n1.(bufs := bufs), Rreq(node));
    } else if n1.routes[node].nextHop != 0 && node != 0 {
      StartEmits(c, n, n1, Frame(n1.routes[node].nextHop, n1.me, n1.me, m.id, flags, 0,
                                 UserMsg(m.sender, m.destUser, node, m.message)));
    }
  }

  lemma SendUserMessageEmits(c: Ctx, n: Node, n1: Node, sender: U32, to: U32, message: seq<U8>, packetId: U32, flags: U8)
    requires Emits(c, n, n1) && !c.cause.Expiry?
    requires Undisturbed(c, n) ==> packetId != c.watch
    ensures Emits(c, n, SendUserMessage(n1, sender, to, message, packetId, flags))
  {
    hide Undisturbed, SendUserVia;
    var m := PendingUser(if packetId == 0 then Draw(n1) else packetId, sender, to, message);
    var n2 := if packetId == 0 then Drew(n1) else n1;
    PickEmits(c, n, n1, packetId);
    if flags == TO_GATEWAY {
      if n1.peers.gateways != [] {
        SendUserViaEmits(c, n, n2, m, GatewayTarget(n2), flags);
      }
    } else if to in n1.peers.gut {
      SendUserViaEmits(c, n, n2, m, n1.peers.gut[to], flags);
    } else {
      BufferMsgEmits(c, n, n2, to, PendingMsg(m.id, sender, message));
    }
  }

  lemma BufferMsgEmits(c: Ctx, n: Node, n1: Node, to: U32, p: PendingMsg)
    requires Emits(c, n, n1) && !c.cause.Expiry?
    requires Undisturbed(c, n) ==> p.id != c.watch
    ensures var bufs := n1.bufs.(msgBuf := n1.bufs.msgBuf[to := At(n1.bufs.msgBuf, to) + [p]]);
            Emits(c, n, SendUreq(n1.(bufs := bufs), to))
  {
    var bufs := n1.bufs.(msgBuf := n1.bufs.msgBuf[to := At(n1.bufs.msgBuf, to) + [p]]);
    SameEmits(c, n, n1, n1.(bufs := bufs));
    AskEmits(c, n, n1.(bufs := bufs), Ureq(to));
  }

  lemma SendMoveUserReqEmits(c: Ctx, n: Node, n1: Node, user: U32, oldNode: U32)
    requires Emits(c, n, n1) && !c.cause.Expiry?
    ensures Emits(c, n, SendMoveUserReq(n1, user, oldNode))
  {
    if oldNode in n1.routes {
      OriginateEmits(c, n, n1, n1.routes[oldNode].nextHop, n1.me, MoveUser(user, oldNode));
    } else {
      var bufs := n1.bufs.(moveBuf := n1.bufs.moveBuf[oldNode := At(n1.bufs.moveBuf, oldNode) + [MoveReq(user, oldNode)]]);
      SameEmits(c, n, n1, n1.(bufs := bufs));
      AskEmits(c, n, n1.(bufs := bufs), Rreq(oldNode));
    }
  }

  // ---------- flushes ----------

  lemma FlushDataItemEmits(c: Ctx, n: Node, n1: Node, dest: U32, p: PendingData)
    requires Emits(c, n, n1) && !c.cause.Expiry?
    requires Undisturbed(c, n) ==> p.id != c.watch
    ensures Emits(c, n, FlushDataItem(n1, dest, p))
  {
    if dest in n1.routes {
      PickEmits(c, n, n1, p.id);
      var id := if p.id == 0 then Draw(n1) else p.id;
      StartEmits(c, n, if p.id == 0 then Drew(n1) else n1,
                 Frame(n1.routes[dest].nextHop, n1.me, n1.me, id, 0, 0, Data(dest, p.data)));
    } else {
      var bufs := n1.bufs.(dataBuf := n1.bufs.dataBuf[dest := At(n1.bufs.dataBuf, dest) + [p]]);
      SameEmits(c, n, n1, n1.(bufs := bufs));
    }
  }

  lemma {:induction false} FlushDataItemsEmits(c: Ctx, n: Node, n1: Node, dest: U32, ps: seq<PendingData>)
    requires Emits(c, n, n1) && !c.cause.Expiry?
    requires Undisturbed(c, n) ==> forall i | 0 <= i < |ps| :: ps[i].id != c.watch
    ensures Emits(c, n, FlushDataItems(n1, dest, ps))
    decreases |ps|
  {
    hide Undisturbed, Emits, FlushDataItem;
    if ps != [] {
      FlushDataItemsEmits(c, n, n1, dest, ps[..|ps| - 1]);
      FlushDataItemEmits(c, n, FlushDataItems(n1, dest, ps[..|ps| - 1]), dest, ps[|ps| - 1]);
    }
  }

  lemma FlushDataEmits(c: Ctx, n: Node, dest: U32)
    requires Steady(c, n, n) && !c.cause.Expiry?
    ensures Emits(c, n, FlushData(n, dest))
  {
    NothingEmits(c, n);
    var n1 := n.(bufs := n.bufs.(dataBuf := n.bufs.dataBuf - {dest}));
    SameEmits(c, n, n, n1);
    FlushDataItemsEmits(c, n, n1, dest, At(n.bufs.dataBuf, dest));
  }

  lemma {:induction false} FlushMoveItemsEmits(c: Ctx, n: Node, n1: Node, rs: seq<MoveReq>)
    requires Emits(c, n, n1) && !c.cause.Expiry?
    ensures Emits(c, n, FlushMoveItems(n1, rs))
    decreases |rs|
  {
    hide Emits, SendMoveUserReq;
    if rs != [] {
      FlushMoveItemsEmits(c, n, n1, rs[..|rs| - 1]);
      SendMoveUserReqEmits(c, n, FlushMoveItems(n1, rs[..|rs| - 1]), rs[|rs| - 1].user, rs[|rs| - 1].oldNode);
    }
  }

  lemma FlushMoveEmits(c: Ctx, n: Node, node: U32)
    requires Steady(c, n, n) && !c.cause.Expiry?
    ensures Emits(c, n, FlushMove(n, node))
  {
    NothingEmits(c, n);
    var n1 := n.(bufs := n.bufs.(moveBuf := n.bufs.moveBuf - {node}));
    SameEmits(c, n, n, n1);
    FlushMoveItemsEmits(c, n, n1, At(n.bufs.moveBuf, node));
  }

  lemma {:induction false} FlushUserItemsEmits(c: Ctx, n: Node, n1: Node, ms: seq<PendingUser>)
    requires Emits(c, n, n1) && !c.cause.Expiry?
    requires Undisturbed(c, n) ==> forall i | 0 <= i < |ms| :: ms[i].id != c.watch
    ensures Emits(c, n, FlushUserItems(n1, ms))
    decreases |ms|
  {
    hide Undisturbed, Emits, SendUserMessage;
    if ms != [] {
      FlushUserItemsEmits(c, n, n1, ms[..|ms| - 1]);
      var m := ms[|ms| - 1];
      SendUserMessageEmits(c, n, FlushUserItems(n1, ms[..|ms| - 1]), m.sender, m.destUser, m.message, m.id, 0);
    }
  }

  lemma FlushUserEmits(c: Ctx, n: Node, node: U32)
    requires Steady(c, n, n) && !c.cause.Expiry?
    ensures Emits(c, n, FlushUser(n, node))
  {
    NothingEmits(c, n);
    var n1 := n.(bufs := n.bufs.(routeBuf := n.bufs.routeBuf - {node}));
    SameEmits(c, n, n, n1);
    FlushUserItemsEmits(c, n, n1, At(n.bufs.routeBuf, node));
  }

  lemma {:induction false} FlushMsgItemsEmits(c: Ctx, n: Node, n1: Node, user: U32, ms: seq<PendingMsg>)
    requires Emits(c, n, n1) && !c.cause.Expiry?
    requires Undisturbed(c, n) ==> forall i | 0 <= i < |ms| :: ms[i].id != c.watch
    ensures Emits(c, n, FlushMsgItems(n1, user, ms))
    decreases |ms|
  {
    hide Undisturbed, Emits, SendUserMessage;
    if ms != [] {
      FlushMsgItemsEmits(c, n, n1, user, ms[..|ms| - 1]);
      var m := ms[|ms| - 1];
      SendUserMessageEmits(c, n, FlushMsgItems(n1, user, ms[..|ms| - 1]), m.sender, user, m.message, m.id, 0);
    }
  }

  lemma FlushMsgEmits(c: Ctx, n: Node, user: U32)
    requires Steady(c, n, n) && !c.cause.Expiry?
    ensures Emits(c, n, FlushMsg(n, user))
  {
    NothingEmits(c, n);
    var n1 := n.(bufs := n.bufs.(msgBuf := n.bufs.msgBuf - {user}));
    SameEmits(c, n, n, n1);
    FlushMsgItemsEmits(c, n, n1, user, At(n.bufs.msgBuf, user));
  }

  lemma FlushEmits(c: Ctx, n: Node, t: U32)
    requires Steady(c, n, n) && !c.cause.Expiry?
    ensures Emits(c, n, Flush(n, t))
  {
    hide FlushData, FlushMove, FlushUser, Undisturbed, Ledger, Fine, Mild;
    NothingEmits(c, n);
    if t in n.routes {
      var a := FlushData(n, t);
      var b := FlushMove(a, t);
      FlushDataEmits(c, n, t);
      FlushMoveEmits(c, a, t);
      FlushUserEmits(c, b, t);
      EmitsTrans(c, n, a, b);
      EmitsTrans(c, n, b, FlushUser(b, t));
    }
  }

  lemma {:induction false} ForwardInboxEmits(c: Ctx, n: Node, n1: Node, ms: seq<OfflineMsg>)
    requires Emits(c, n, n1) && !c.cause.Expiry?
    requires Undisturbed(c, n) ==> forall i | 0 <= i < |ms| :: ms[i].id != c.watch
    ensures Emits(c, n, ForwardInbox(n1, ms))
    decreases |ms|
  {
    hide Undisturbed, Emits, SendUserMessage;
    if ms != [] {
      ForwardInboxEmits(c, n, n1, ms[..|ms| - 1]);
      var m := ms[|ms| - 1];
      SendUserMessageEmits(c, n, ForwardInbox(n1, ms[..|ms| - 1]), m.sender, m.to, m.data, m.id,
                           if m.kind == EncryptedMsg then ENC_MSG else 0);
    }
  }

  lemma HandOverEmits(c: Ctx, n: Node, u: U32)
    requires Steady(c, n, n) && !c.cause.Expiry?
    ensures Emits(c, n, HandOver(n, u))
  {
    NothingEmits(c, n);
    var n1 := n.(users := PopInbox(n.users, u));
    SameEmits(c, n, n, n1);
    ForwardInboxEmits(c, n, n1, Inbox(n.users, u));
    var n2 := ForwardInbox(n1, Inbox(n.users, u));
    SameEmits(c, n, n2, n2.(users := Remove(n2.users, u)));
  }

  lemma {:induction false} TransmitAllEmits(c: Ctx, n: Node, n1: Node, hdr: Frame, bs: seq<Body>)
    requires Emits(c, n, n1) && c.cause.Call?
    requires hdr.prev == hdr.origin == c.me && hdr.hops == 0 && hdr.dest == BROADCAST_ADDR
    requires forall i | 0 <= i < |bs| :: bs[i].Info?
    requires Undisturbed(c, n) ==> hdr.id != c.watch
    ensures Emits(c, n, TransmitAll(n1, hdr, bs))
    decreases |bs|
  {
    hide Undisturbed, Emits, Transmit;
    if bs != [] {
      StartEmits(c, n, n1, hdr.(body := bs[0]));
      TransmitAllEmits(c, n, Transmit(n1, hdr.(body := bs[0])), hdr, bs[1..]);
    }
  }

  lemma {:induction false} ChunksAreInfo(added: seq<U32>, removed: seq<U32>)
    ensures forall i | 0 <= i < |Chunks(added, removed)| :: Chunks(added, removed)[i].Info?
    decreases |added| + |removed|
  {
    if added != [] || removed != [] {
      var c := FirstChunk(added, removed);
      ChunksAreInfo(added[c.numAdded..], removed[c.numRemoved..]);
    }
  }

  lemma SendBroadcastInfoEmits(c: Ctx, n: Node)
    requires Steady(c, n, n) && c.cause.Call?
    ensures Emits(c, n, SendBroadcastInfo(n))
  {
    hide Chunks, TransmitAll, Transmit;
    NothingEmits(c, n);
    DrawEmits(c, n, n);
    var n1 := Drew(n).(users := ClearDiff(n.users));
    SameEmits(c, n, Drew(n), n1);
    var hdr := InfoHeader(n);
    if n.users.added == {} && n.users.removed == {} {
      StartEmits(c, n, n1, hdr);
    } else {
      var bs := Chunks(Ordered.Ascending(n.users.added), Ordered.Ascending(n.users.removed));
      ChunksAreInfo(Ordered.Ascending(n.users.added), Ordered.Ascending(n.users.removed));
      TransmitAllEmits(c, n, n1, hdr, bs);
    }
  }

  // ---------- frame handlers ----------

  ghost function Hearing(n: Node, f: Frame, watch: U32): Ctx {
    Ctx(n.me, Learn(n, f).routes, Received(f), watch, watch)
  }

  /** Pass the received frame on in the form the handler gives it. */
  lemma OnwardEmits(c: Ctx, n: Node, n1: Node, e: Frame)
    requires Emits(c, n, n1) && c.cause.Received?
    requires e.prev == c.me && Onward(c, c.cause.frame, OnAir(e))
    ensures Emits(c, n, Transmit(n1, e))
  {
    TransmitEmits(c, n, n1, e);
  }

  lemma BackwardEmits(c: Ctx, n: Node, n1: Node, f: Frame, body: Body)
    requires Emits(c, n, n1) && c.cause == Received(f)
    requires f.body.Rrep? || f.body.Rerr? || f.body.Urep? || f.body.Uerr?
    requires body == if f.body.Rrep? then Rrep(f.body.target, Inc8(f.body.numHops)) else f.body
    ensures Emits(c, n, Backward(n1, f, body))
  {
    hide Emits, Transmit;
    assert n1.me == c.me && n1.routes == c.routes by {
      EmitsKeeps(c, n, n1);
    }
    if n1.me != f.origin && f.origin in n1.routes {
      OnwardEmits(c, n, n1, f.(dest := n1.routes[f.origin].nextHop, prev := n1.me, hops := Inc8(f.hops), body := body));
    }
  }

  lemma EmitsKeeps(c: Ctx, n: Node, n1: Node)
    requires Emits(c, n, n1)
    ensures n1.me == c.me && n1.routes == c.routes
  {
  }

  lemma HandleRreqEmits(n0: Node, f: Frame, watch: U32)
    requires f.body.Rreq?
    ensures Emits(Hearing(n0, f, watch), Learn(n0, f), HandleRreq(n0, f))
  {
    var c, n, t := Hearing(n0, f, watch), LearnRreq(n0, f), f.body.target;
    NothingEmits(c, n);
    hide Transmit, Emits, UpdateRoute;
    if t == n.me {
      OriginateEmits(c, n, n, f.prev, f.origin, Rrep(n.me, 0));
    } else if t in n.routes && n.routes[t].hops >= ROUTE_REPLY_THRESHOLD {
      OriginateEmits(c, n, n, f.prev, f.origin, Rrep(t, n.routes[t].hops));
    } else {
      OnwardEmits(c, n, n, f.(prev := n.me, hops := Inc8(f.hops), dest := BROADCAST_ADDR));
    }
  }

  lemma HandleRrepEmits(n0: Node, f: Frame, watch: U32)
    requires f.body.Rrep?
    ensures Emits(Hearing(n0, f, watch), Learn(n0, f), HandleRrep(n0, f))
  {
    var c, n := Hearing(n0, f, watch), LearnRrep(n0, f);
    FlushEmits(c, n, f.body.target);
    BackwardEmits(c, n, Flush(n, f.body.target), f, Rrep(f.body.target, Inc8(f.body.numHops)));
  }

  lemma HandleRerrEmits(n0: Node, f: Frame, watch: U32)
    requires f.body.Rerr?
    ensures Emits(Hearing(n0, f, watch), Learn(n0, f), HandleRerr(n0, f))
  {
    var c, n := Hearing(n0, f, watch), LearnRerr(n0, f);
    NothingEmits(c, n);
    BackwardEmits(c, n, n, f, f.body);
  }

  lemma HandleDataEmits(n0: Node, f: Frame, watch: U32)
    requires f.body.Data?
    ensures Emits(Hearing(n0, f, watch), Learn(n0, f), HandleData(n0, f))
  {
    var c, t := Hearing(n0, f, watch), f.body.finalDest;
    NothingEmits(c, n0);
    var n := n0;
    if f.flags == REQ_ACK {
      OriginateEmits(c, n0, n0, f.prev, n0.me, Ack(f.id));
      n := SendAck(n0, f.prev, f.id);
    }
    EmitsKeeps(c, n0, n);
    hide Transmit, Emits, Originate;
    var fwd := f.(prev := n.me, hops := Inc8(f.hops));
    if n.me == t {
      TellEmits(c, n0, n, BleNode(f.origin, f.body.data, f.id));
    } else if t == BROADCAST_ADDR {
      TellEmits(c, n0, n, BleBroadcast(f.body.data, f.id));
      OnwardEmits(c, n0, Tell(n, BleBroadcast(f.body.data, f.id)), fwd.(dest := BROADCAST_ADDR));
    } else if t !in n.routes {
      OriginateEmits(c, n0, n, f.origin, f.origin, Rerr(n.me, n.me, t, f.id));
    } else {
      OnwardEmits(c, n0, n, fwd.(dest := n.routes[t].nextHop));
    }
  }

  lemma HandleInfoEmits(n0: Node, f: Frame, watch: U32)
    requires f.body.Info?
    ensures Emits(Hearing(n0, f, watch), Learn(n0, f), HandleInfo(n0, f))
  {
    hide LearnInfo, Transmit;
    LearnInfoKeeps(n0, f);
    var c, n := Hearing(n0, f, watch), LearnInfo(n0, f);
    NothingEmits(c, n);
    hide Emits;
    if Inc8(f.hops) < MAX_HOPS {
      OnwardEmits(c, n, n, f.(prev := n.me, hops := Inc8(f.hops)));
    }
  }

  lemma LearnInfoKeeps(n: Node, f: Frame)
    requires f.body.Info?
    ensures LearnInfo(n, f).me == n.me
  {
  }

  lemma HandleUserMessageEmits(n0: Node, f: Frame, watch: U32)
    requires f.body.UserMsg?
    ensures Emits(Hearing(n0, f, watch), Learn(n0, f), HandleUserMessage(n0, f))
  {
    var c, b := Hearing(n0, f, watch), f.body;
    NothingEmits(c, n0);
    var n := n0;
    if f.flags == REQ_ACK || f.flags == ENC_ACK {
      OriginateEmits(c, n0, n0, f.prev, n0.me, Ack(f.id));
      n := SendAck(n0, f.prev, f.id);
    }
    EmitsKeeps(c, n0, n);
    hide Transmit, Emits, Originate;
    if n.me == b.toNode && f.flags == TO_GATEWAY {
      if n.io.env.gwOnline {
        TellEmits(c, n0, n, Uplink(b.fromUser, b.toUser, b.message));
      }
    } else if n.me == b.toNode {
      DeliverUserMsgEmits(c, n0, n, f);
    } else if b.toNode !in n.routes {
      OriginateEmits(c, n0, n, f.origin, f.origin, Rerr(n.me, n.me, b.toNode, f.id));
    } else {
      OnwardEmits(c, n0, n, f.(prev := n.me, dest := n.routes[b.toNode].nextHop, hops := Inc8(f.hops)));
    }
  }

  lemma DeliverUserMsgEmits(c: Ctx, n: Node, n1: Node, f: Frame)
    requires Emits(c, n, n1) && c.cause == Received(f)
    requires f.body.UserMsg? && f.body.toNode == c.me
    ensures Emits(c, n, DeliverUserMsg(n1, f))
  {
    var b := f.body;
    if !Knows(n1.users, b.toUser) {
      OriginateEmits(c, n, n1, f.prev, f.origin, Uerr(b.toUser, n1.me, f.id));
    } else if !IsOnline(n1.users, b.toUser) {
      var m := OfflineMsg(KindOf(f.flags), f.id, b.toUser, b.fromUser, b.message);
      QueueUndisturbed(c, n1, b.toUser, m);
      SameEmits(c, n, n1, n1.(users := QueueOffline(n1.users, b.toUser, m)));
    } else {
      TellEmits(c, n, n1, BleUser(KindOf(f.flags), b.toUser, b.fromUser, b.message, f.id));
    }
  }

  lemma QueueUndisturbed(c: Ctx, n: Node, u: U32, m: OfflineMsg)
    requires c.cause.Received? && m.id == c.cause.frame.id && c.cause.frame.body.UserMsg?
    ensures Undisturbed(c, n) ==> Undisturbed(c, n.(users := QueueOffline(n.users, u, m)))
  {
  }

  lemma HandleUreqEmits(n0: Node, f: Frame, watch: U32)
    requires f.body.Ureq?
    ensures Emits(Hearing(n0, f, watch), Learn(n0, f), HandleUreq(n0, f))
  {
    var c, n, u := Hearing(n0, f, watch), LearnUreq(n0, f), f.body.user;
    NothingEmits(c, n);
    hide Transmit, Emits, UpdateRoute;
    if Knows(n.users, u) {
      OriginateEmits(c, n, n, f.prev, f.origin, Urep(n.me, u, Inc8(f.hops)));
    } else if u in n.peers.gut && n.peers.gut[u] in n.routes && n.routes[n.peers.gut[u]].hops >= USER_REPLY_THRESHOLD {
      OriginateEmits(c, n, n, f.prev, f.origin, Urep(n.me, u, Add8(Inc8(f.hops), n.routes[n.peers.gut[u]].hops)));
    } else {
      OnwardEmits(c, n, n, f.(prev := n.me, hops := Inc8(f.hops)));
    }
  }

  lemma HandleUrepEmits(n0: Node, f: Frame, watch: U32)
    requires f.body.Urep?
    ensures Emits(Hearing(n0, f, watch), Learn(n0, f), HandleUrep(n0, f))
  {
    var c, n := Hearing(n0, f, watch), LearnUrep(n0, f);
    NothingEmits(c, n);
    if n.me == f.origin {
      FlushMsgEmits(c, n, f.body.user);
    } else {
      BackwardEmits(c, n, n, f, f.body);
    }
  }

  lemma HandleUerrEmits(n0: Node, f: Frame, watch: U32)
    requires f.body.Uerr?
    ensures Emits(Hearing(n0, f, watch), Learn(n0, f), HandleUerr(n0, f))
  {
    var c, n := Hearing(n0, f, watch), LearnUerr(n0, f);
    NothingEmits(c, n);
    BackwardEmits(c, n, n, f, f.body);
  }

  lemma HandleMoveUserEmits(n0: Node, f: Frame, watch: U32)
    requires f.body.MoveUser?
    ensures Emits(Hearing(n0, f, watch), Learn(n0, f), HandleMoveUser(n0, f))
  {
    var c, n, b := Hearing(n0, f, watch), LearnMove(n0, f), f.body;
    NothingEmits(c, n);
    hide Transmit, HandOver;
    if n.me == b.oldNode {
      HandOverEmits(c, n, b.user);
    } else if b.oldNode in n.routes {
      OnwardEmits(c, n, n, f.(prev := n.me, dest := n.routes[b.oldNode].nextHop, hops := Inc8(f.hops)));
    }
  }

  /** Every handler but the ACK handler: learn, then send what `Just` allows. */
  lemma DispatchEmits(n: Node, f: Frame, watch: U32)
    requires !f.body.Ack?
    ensures Emits(Hearing(n, f, watch), Learn(n, f), Dispatch(n, f))
  {
    hide Emits, Hearing, Learn;
    match f.body
    case Rreq(_) => HandleRreqEmits(n, f, watch);
    case Rrep(_, _) => HandleRrepEmits(n, f, watch);
    case Rerr(_, _, _, _) => HandleRerrEmits(n, f, watch);
    case Data(_, _) => HandleDataEmits(n, f, watch);
    case Info(_, _, _) => HandleInfoEmits(n, f, watch);
    case Ureq(_) => HandleUreqEmits(n, f, watch);
    case Urep(_, _, _) => HandleUrepEmits(n, f, watch);
    case Uerr(_, _, _) => HandleUerrEmits(n, f, watch);
    case UserMsg(_, _, _, _) => HandleUserMessageEmits(n, f, watch);
    case MoveUser(_, _) => HandleMoveUserEmits(n, f, watch);
  }

  // ---------- learning ----------

  /** Learning touches the routing table and the peers only (and tells the phones about gateways). */
  ghost predicate OnlyLearns(n: Node, n': Node) {
    && n'.me == n.me && n'.seen == n.seen && n'.acks == n.acks && n'.bufs == n.bufs && n'.users == n.users
    && n'.io.env == n.io.env && n'.io.handed == n.io.handed && n'.io.air == n.io.air
    && n.io.notes <= n'.io.notes && (forall i | |n.io.notes| <= i < |n'.io.notes| :: n'.io.notes[i].GatewayState?)
    && (forall p: U32 :: Clean(n, p) ==> Clean(n', p))
    && (forall p: U32 :: Ledger(n, p) ==> Ledger(n', p))
  }

  lemma LearnOnlyLearns(n: Node, f: Frame)
    ensures OnlyLearns(n, Learn(n, f))
  {
    if f.body.Info? {
      LearnInfoOnlyLearns(n, f);
    }
  }

  /** The two payload loops decide the user table. */
  lemma LearnInfoGut(n: Node, f: Frame)
    requires f.body.Info?
    ensures LearnInfo(n, f).peers.gut == Unclaim(Claim(n.peers.gut, AddedIds(f.body), f.origin), RemovedIds(f.body))
  {
    hide Claim, Unclaim, Without, Closest, Updated, AddedIds, RemovedIds;
  }

  lemma LearnInfoOnlyLearns(n: Node, f: Frame)
    requires f.body.Info?
    ensures OnlyLearns(n, LearnInfo(n, f))
  {
    var n1 := n.(peers := n.peers.(known := n.peers.known + {f.prev, f.origin}));
    var n2 := if f.flags == I_AM_GATEWAY then AddGateway(n1, f.origin) else RemoveGateway(n1, f.origin);
    assert n2 == n.(peers := n2.peers);
    var note := GatewayState(n2.peers.gateways != []);
    forall p: U32 {
      OutcomesSnoc(n.io.notes, note, p);
    }
    var r := LearnInfo(n, f);
    assert r.io == n.io.(notes := n.io.notes + [note]);
    assert r == n.(peers := r.peers, routes := r.routes, io := r.io);
  }
}
