/** The router object: fields updated in place, each operation proved to do
    to the fields what the corresponding function of `Nodes` does to a value. */
module Router {
  import opened Packets
  import opened Ordered
  import opened Sessions
  import opened Nodes

  class AODVRouter {
    const me: U32
    const usm: UserSessionManager

    var routeTable: map<U32, Route>
    var receivedPacketIDs: set<U32>
    var discoveredNodes: set<U32>
    var gut: map<U32, U32>
    var dataBuffer: map<U32, seq<PendingData>>
    var userMsgBuffer: map<U32, seq<PendingMsg>>
    var userRouteBuffer: map<U32, seq<PendingUser>>
    var moveReqBuffer: map<U32, seq<MoveReq>>
    var ackBuffer: map<U32, AckEntry>
    var gateways: seq<U32>
    var closestGw: U32
    var closestHops: U8

    var env: Env
    var drawn: nat
    var offered: nat
    var handed: seq<Frame>
    var air: seq<Frame>
    var notes: seq<Note>

    ghost function View(): Node
      reads this, usm
    {
      Node(me, routeTable, receivedPacketIDs, ackBuffer,
           Io(env, drawn, offered, handed, air, notes),
           Buffers(dataBuffer, userMsgBuffer, userRouteBuffer, moveReqBuffer),
           Peers(discoveredNodes, gut, gateways, closestGw, closestHops),
           usm.View())
    }

    constructor (me: U32, usm: UserSessionManager, env: Env)
      requires usm.View() == EMPTY
      ensures View() == Fresh(me, env)
    {
      this.me, this.usm, this.env := me, usm, env;
      routeTable, receivedPacketIDs, discoveredNodes, gut := map[], {}, {}, map[];
      dataBuffer, userMsgBuffer, userRouteBuffer, moveReqBuffer := map[], map[], map[], map[];
      ackBuffer, gateways, closestGw, closestHops := map[], [], 0, 255;
      drawn, offered, handed, air, notes := 0, 0, [], [], [];
    }

    // ---------- outside world ----------

    method Random() returns (r: U32)
      modifies this
      ensures r == Draw(old(View())) && View() == Drew(old(View()))
    {
      r := env.random(drawn);
      drawn := drawn + 1;
    }

    method EnqueueTxPacket(f: Frame) returns (ok: bool)
      modifies this
      ensures ok == old(env.accepts(offered))
      ensures View() == old(View()).(io := old(View()).io.(offered := old(offered) + 1, air := old(air) + if ok then [f] else []))
    {
      ok := env.accepts(offered);
      offered := offered + 1;
      if ok {
        air := air + [f];
      }
    }

    method Notify(note: Note)
      modifies this
      ensures View() == Tell(old(View()), note)
    {
      notes := notes + [note];
    }

    // ---------- routing table ----------

    method UpdateRouteEntry(dest: U32, nextHop: U32, hops: U8)
      modifies this
      ensures View() == UpdateRoute(old(View()), dest, nextHop, hops)
    {
      if dest !in routeTable {
        routeTable := routeTable[dest := Route(nextHop, hops)];
      } else if hops < routeTable[dest].hops {
        routeTable := routeTable[dest := Route(nextHop, hops)];
      }
    }

    method InvalidateRoute(broken: U32, finalDest: U32)
      modifies this`routeTable
      ensures routeTable == Invalidated(old(routeTable), broken, finalDest)
    {
      routeTable := routeTable - {broken};
      routeTable := routeTable - {finalDest};
      EraseRoutesVia(broken);
    }

    method EraseRoutesVia(broken: U32)
      modifies this`routeTable
      ensures forall d: U32 :: d in routeTable <==> d in old(routeTable) && old(routeTable)[d].nextHop != broken
      ensures forall d | d in routeTable :: routeTable[d] == old(routeTable)[d]
    {
      ghost var start := routeTable;
      var rest := routeTable.Keys;
      while rest != {}
        invariant rest <= routeTable.Keys
        invariant forall d: U32 :: d in routeTable <==> d in start && (d in rest || start[d].nextHop != broken)
        invariant forall d | d in routeTable :: routeTable[d] == start[d]
        decreases |rest|
      {
        var d :| d in rest;
        if routeTable[d].nextHop == broken {
          routeTable := routeTable - {d};
        }
        rest := rest - {d};
      }
    }

    // ---------- transmission ----------

    method StoreAckPacket(f: Frame, nextHop: U32)
      modifies this
      ensures View() == StoreAck(old(View()), f, nextHop)
    {
      ackBuffer := ackBuffer[f.id := AckEntry(f, nextHop, env.clock, 0)];
    }

    method TransmitPacket(f: Frame)
      modifies this
      ensures View() == Transmit(old(View()), f)
    {
      handed := handed + [f];
      if BASE_HDR + BodyLen(f.body) + TAG_LEN > MAX_BUF {
        return;
      }
      var g := f.(flags := ClearEnc(f.flags));
      var ok := EnqueueTxPacket(g);
      if !ok {
        return;
      }
      if f.dest != BROADCAST_ADDR && AsksAck(f.flags) {
        if f.dest in routeTable {
          StoreAckPacket(g, routeTable[f.dest].nextHop);
        }
      }
    }

    method OriginateFrame(dest: U32, origin: U32, body: Body)
      modifies this
      ensures View() == Originate(old(View()), dest, origin, body)
    {
      var id := Random();
      TransmitPacket(Frame(dest, me, origin, id, 0, 0, body));
    }

    // ---------- API calls ----------

    method SendDataTo(dest: U32, data: seq<U8>, packetId: U32, flags: U8)
      modifies this
      ensures View() == SendData(old(View()), dest, data, packetId, flags)
    {
      var id := packetId;
      if id == 0 {
        id := Random();
      }
      var nextHop := BROADCAST_ADDR;
      if dest != BROADCAST_ADDR {
        if dest !in routeTable {
          dataBuffer := dataBuffer[dest := At(dataBuffer, dest) + [PendingData(id, data)]];
          OriginateFrame(BROADCAST_ADDR, me, Rreq(dest));
          return;
        }
        nextHop := routeTable[dest].nextHop;
      }
      TransmitPacket(Frame(nextHop, me, me, id, flags, 0, Data(dest, data)));
    }

    method SendUserMsg(sender: U32, to: U32, message: seq<U8>, packetId: U32, flags: U8)
      modifies this
      ensures View() == SendUserMessage(old(View()), sender, to, message, packetId, flags)
    {
      var id := packetId;
      if id == 0 {
        id := Random();
      }
      var node: U32;
      if flags == TO_GATEWAY {
        if gateways == [] {
          return;
        }
        node := closestGw;
        if node == 0 {
          node := gateways[0];
        }
      } else {
        if to !in gut {
          userMsgBuffer := userMsgBuffer[to := At(userMsgBuffer, to) + [PendingMsg(id, sender, message)]];
          OriginateFrame(BROADCAST_ADDR, me, Ureq(to));
          return;
        }
        node := gut[to];
      }
      if node !in routeTable {
        userRouteBuffer := userRouteBuffer[node := At(userRouteBuffer, node) + [PendingUser(id, sender, to, message)]];
        OriginateFrame(BROADCAST_ADDR, me, Rreq(node));
        return;
      }
      var nextHop := routeTable[node].nextHop;
      if nextHop == 0 || node == 0 {
        return;
      }
      TransmitPacket(Frame(nextHop, me, me, id, flags, 0, UserMsg(sender, to, node, message)));
    }

    method SendMoveUser(user: U32, oldNode: U32)
      modifies this
      ensures View() == SendMoveUserReq(old(View()), user, oldNode)
    {
      if oldNode !in routeTable {
        moveReqBuffer := moveReqBuffer[oldNode := At(moveReqBuffer, oldNode) + [MoveReq(user, oldNode)]];
        OriginateFrame(BROADCAST_ADDR, me, Rreq(oldNode));
        return;
      }
      OriginateFrame(routeTable[oldNode].nextHop, me, MoveUser(user, oldNode));
    }

    // ---------- pending buffers ----------

    method FlushDataEntry(dest: U32, p: PendingData)
      modifies this
      ensures View() == FlushDataItem(old(View()), dest, p)
    {
      if dest in routeTable {
        var id := p.id;
        if id == 0 {
          id := Random();
        }
        TransmitPacket(Frame(routeTable[dest].nextHop, me, me, id, 0, 0, Data(dest, p.data)));
      } else {
        dataBuffer := dataBuffer[dest := At(dataBuffer, dest) + [p]];
      }
    }

    method FlushDataQueue(dest: U32)
      modifies this
      ensures View() == FlushData(old(View()), dest)
    {
      hide FlushDataItem;
      var pending := At(dataBuffer, dest);
      dataBuffer := dataBuffer - {dest};
      ghost var start := View();
      var i := 0;
      while i < |pending|
        invariant 0 <= i <= |pending|
        invariant View() == FlushDataItems(start, dest, pending[..i])
      {
        assert pending[..i + 1][..i] == pending[..i];
        FlushDataEntry(dest, pending[i]);
        i := i + 1;
      }
      assert pending[..i] == pending;
    }

    method FlushMoveReqBuffer(node: U32)
      modifies this
      ensures View() == FlushMove(old(View()), node)
    {
      hide SendMoveUserReq;
      var pending := At(moveReqBuffer, node);
      moveReqBuffer := moveReqBuffer - {node};
      ghost var start := View();
      var i := 0;
      while i < |pending|
        invariant 0 <= i <= |pending|
        invariant View() == FlushMoveItems(start, pending[..i])
      {
        assert pending[..i + 1][..i] == pending[..i];
        SendMoveUser(pending[i].user, pending[i].oldNode);
        i := i + 1;
      }
      assert pending[..i] == pending;
    }

    method FlushUserRouteBuffer(node: U32)
      modifies this
      ensures View() == FlushUser(old(View()), node)
    {
      hide SendUserMessage;
      var pending := At(userRouteBuffer, node);
      userRouteBuffer := userRouteBuffer - {node};
      ghost var start := View();
      var i := 0;
      while i < |pending|
        invariant 0 <= i <= |pending|
        invariant View() == FlushUserItems(start, pending[..i])
      {
        assert pending[..i + 1][..i] == pending[..i];
        var m := pending[i];
        SendUserMsg(m.sender, m.destUser, m.message, m.id, 0);
        i := i + 1;
      }
      assert pending[..i] == pending;
    }

    method FlushUserMsgBuffer(user: U32)
      modifies this
      ensures View() == FlushMsg(old(View()), user)
    {
      hide SendUserMessage;
      var pending := At(userMsgBuffer, user);
      userMsgBuffer := userMsgBuffer - {user};
      ghost var start := View();
      var i := 0;
      while i < |pending|
        invariant 0 <= i <= |pending|
        invariant View() == FlushMsgItems(start, user, pending[..i])
      {
        assert pending[..i + 1][..i] == pending[..i];
        var m := pending[i];
        SendUserMsg(m.sender, user, m.message, m.id, 0);
        i := i + 1;
      }
      assert pending[..i] == pending;
    }

    // ---------- gateways ----------

    method RecomputeClosestGateway()
      modifies this
      ensures View() == Recompute(old(View()))
    {
      var bestGw: U32, bestHops: U8 := 0, 255;
      var i := 0;
      while i < |gateways|
        invariant 0 <= i <= |gateways|
        invariant View() == old(View())
        invariant (bestGw, bestHops) == Closest(routeTable, gateways[..i])
      {
        assert gateways[..i + 1][..i] == gateways[..i];
        var g := gateways[i];
        if g in routeTable && routeTable[g].hops < bestHops {
          bestGw, bestHops := g, routeTable[g].hops;
        }
        i := i + 1;
      }
      assert gateways[..i] == gateways;
      closestGw, closestHops := bestGw, bestHops;
    }

    method NoteGateway(g: U32)
      modifies this
      ensures View() == AddGateway(old(View()), g)
    {
      if g !in gateways {
        gateways := gateways + [g];
        RecomputeClosestGateway();
      }
    }

    method DropGateway(g: U32)
      modifies this
      ensures View() == RemoveGateway(old(View()), g)
    {
      if g in gateways {
        gateways := Without(gateways, g);
        if g == closestGw {
          RecomputeClosestGateway();
        }
      }
    }

    // ---------- frame handlers ----------

    method OnRreq(f: Frame)
      requires f.body.Rreq?
      modifies this
      ensures View() == HandleRreq(old(View()), f)
    {
      UpdateRouteEntry(f.origin, f.prev, Inc8(f.hops));
      UpdateRouteEntry(f.prev, f.prev, 1);
      var target := f.body.target;
      if target == me {
        OriginateFrame(f.prev, f.origin, Rrep(me, 0));
        return;
      }
      if target in routeTable {
        if routeTable[target].hops >= ROUTE_REPLY_THRESHOLD {
          OriginateFrame(f.prev, f.origin, Rrep(target, routeTable[target].hops));
          return;
        }
      }
      TransmitPacket(f.(prev := me, hops := Inc8(f.hops), dest := BROADCAST_ADDR));
    }

    /** The shared tail of the reply handlers: on toward the original requester. */
    method ForwardToOrigin(f: Frame, body: Body)
      modifies this
      ensures View() == Backward(old(View()), f, body)
    {
      if me == f.origin {
        return;
      }
      if f.origin !in routeTable {
        return;
      }
      TransmitPacket(f.(dest := routeTable[f.origin].nextHop, prev := me, hops := Inc8(f.hops), body := body));
    }

    method OnRrep(f: Frame)
      requires f.body.Rrep?
      modifies this
      ensures View() == HandleRrep(old(View()), f)
    {
      var target := f.body.target;
      UpdateRouteEntry(target, f.prev, Inc8(f.body.numHops));
      UpdateRouteEntry(f.prev, f.prev, 1);
      if target in routeTable {
        FlushDataQueue(target);
        FlushMoveReqBuffer(target);
        FlushUserRouteBuffer(target);
      }
      ForwardToOrigin(f, Rrep(target, Inc8(f.body.numHops)));
    }

    method OnRerr(f: Frame)
      requires f.body.Rerr?
      modifies this
      ensures View() == HandleRerr(old(View()), f)
    {
      if f.body.broken != f.body.reporter {
        InvalidateRoute(f.body.broken, f.body.originalDest);
      } else {
        routeTable := routeTable - {f.body.originalDest};
      }
      ForwardToOrigin(f, f.body);
    }

    method OnData(f: Frame)
      requires f.body.Data?
      modifies this
      ensures View() == HandleData(old(View()), f)
    {
      if f.flags == REQ_ACK {
        OriginateFrame(f.prev, me, Ack(f.id));
      }
      var t := f.body.finalDest;
      if me == t {
        Notify(BleNode(f.origin, f.body.data, f.id));
        return;
      }
      var fwd := f.(prev := me);
      if t == BROADCAST_ADDR {
        Notify(BleBroadcast(f.body.data, f.id));
        fwd := fwd.(dest := BROADCAST_ADDR);
      } else {
        if t !in routeTable {
          OriginateFrame(f.origin, f.origin, Rerr(me, me, t, f.id));
          return;
        }
        fwd := fwd.(dest := routeTable[t].nextHop);
      }
      fwd := fwd.(hops := Inc8(fwd.hops));
      TransmitPacket(fwd);
    }

    method SaveNodes(a: U32, b: U32)
      modifies this
      ensures View() == old(View()).(peers := old(View()).peers.(known := old(discoveredNodes) + {a, b}))
    {
      if a !in discoveredNodes {
        discoveredNodes := discoveredNodes + {a};
      }
      if b !in discoveredNodes {
        discoveredNodes := discoveredNodes + {b};
      }
      assert discoveredNodes == old(discoveredNodes) + {a, b};
    }

    method OnInfo(f: Frame)
      requires f.body.Info?
      modifies this
      ensures View() == HandleInfo(old(View()), f)
    {
      SaveNodes(f.prev, f.origin);
      if f.flags == I_AM_GATEWAY {
        NoteGateway(f.origin);
      } else {
        DropGateway(f.origin);
      }
      Notify(GatewayState(gateways != []));
      UpdateRouteEntry(f.prev, f.prev, 1);
      if f.origin != me {
        UpdateRouteEntry(f.origin, f.prev, Inc8(f.hops));
      }
      ClaimUsers(f.body.ids, f.body.numAdded, f.body.numRemoved, f.origin);
      var fwd := f.(prev := me, hops := Inc8(f.hops));
      if fwd.hops >= MAX_HOPS {
        return;
      }
      TransmitPacket(fwd);
    }

    /** The two payload loops, each stopping early if the payload runs out. */
    method ClaimUsers(ids: seq<U32>, numAdded: U16, numRemoved: U16, node: U32)
      modifies this
      ensures var b := Info(numAdded, numRemoved, ids);
              View() == old(View()).(peers := old(View()).peers.(gut := Unclaim(Claim(old(gut), AddedIds(b), node), RemovedIds(b))))
    {
      var offset, i := 0, 0;
      while i < numAdded && offset < |ids|
        invariant 0 <= i <= numAdded && offset == i <= |ids|
        invariant View() == old(View()).(peers := old(View()).peers.(gut := Claim(old(gut), ids[..offset], node)))
      {
        assert ids[..offset + 1][..offset] == ids[..offset];
        gut := gut[ids[offset] := node];
        offset, i := offset + 1, i + 1;
      }
      ghost var claimed, rest := gut, ids[offset..];
      ghost var begin := offset;
      i := 0;
      while i < numRemoved && offset < |ids|
        invariant 0 <= i <= numRemoved && offset == begin + i <= |ids|
        invariant View() == old(View()).(peers := old(View()).peers.(gut := Unclaim(claimed, rest[..i])))
      {
        assert rest[..i + 1][..i] == rest[..i];
        gut := gut - {ids[offset]};
        offset, i := offset + 1, i + 1;
      }
      assert i == Min(numRemoved, |rest|);
    }

    method OnUserMessage(f: Frame)
      requires f.body.UserMsg?
      modifies this, usm
      ensures View() == HandleUserMessage(old(View()), f)
    {
      var b := f.body;
      if f.flags == REQ_ACK || f.flags == ENC_ACK {
        OriginateFrame(f.prev, me, Ack(f.id));
      }
      if me == b.toNode && f.flags == TO_GATEWAY {
        if env.gwOnline {
          Notify(Uplink(b.fromUser, b.toUser, b.message));
        }
        return;
      }
      if me == b.toNode {
        if Knows(usm.View(), b.toUser) {
          if !IsOnline(usm.View(), b.toUser) {
            usm.QueueOfflineMsg(b.toUser, OfflineMsg(KindOf(f.flags), f.id, b.toUser, b.fromUser, b.message));
            return;
          }
          Notify(BleUser(KindOf(f.flags), b.toUser, b.fromUser, b.message, f.id));
          return;
        } else {
          OriginateFrame(f.prev, f.origin, Uerr(b.toUser, me, f.id));
          return;
        }
      }
      if b.toNode !in routeTable {
        OriginateFrame(f.origin, f.origin, Rerr(me, me, b.toNode, f.id));
        return;
      }
      TransmitPacket(f.(prev := me, dest := routeTable[b.toNode].nextHop, hops := Inc8(f.hops)));
    }

    method OnUreq(f: Frame)
      requires f.body.Ureq?
      modifies this
      ensures View() == HandleUreq(old(View()), f)
    {
      UpdateRouteEntry(f.prev, f.prev, 1);
      UpdateRouteEntry(f.origin, f.prev, Inc8(f.hops));
      var u := f.body.user;
      if Knows(usm.View(), u) {
        OriginateFrame(f.prev, f.origin, Urep(me, u, Inc8(f.hops)));
        return;
      }
      if u in gut {
        if gut[u] in routeTable {
          var hops := routeTable[gut[u]].hops;
          if hops >= USER_REPLY_THRESHOLD {
            OriginateFrame(f.prev, f.origin, Urep(me, u, Add8(Inc8(f.hops), hops)));
            return;
          }
        }
      }
      TransmitPacket(f.(prev := me, hops := Inc8(f.hops)));
    }

    method OnUrep(f: Frame)
      requires f.body.Urep?
      modifies this
      ensures View() == HandleUrep(old(View()), f)
    {
      UpdateRouteEntry(f.prev, f.prev, 1);
      UpdateRouteEntry(f.body.destNode, f.prev, Inc8(f.hops));
      gut := gut[f.body.user := f.body.destNode];
      if me == f.origin {
        FlushUserMsgBuffer(f.body.user);
        return;
      }
      ForwardToOrigin(f, f.body);
    }

    method OnUerr(f: Frame)
      requires f.body.Uerr?
      modifies this
      ensures View() == HandleUerr(old(View()), f)
    {
      UpdateRouteEntry(f.prev, f.prev, 1);
      if f.body.user in gut {
        if gut[f.body.user] == f.body.node {
          gut := gut - {f.body.user};
        }
      }
      ForwardToOrigin(f, f.body);
    }

    method OnAck(f: Frame)
      requires f.body.Ack?
      modifies this
      ensures View() == HandleAck(old(View()), f)
    {
      var p := f.body.originalPacket;
      if p !in ackBuffer {
        return;
      }
      var entry := ackBuffer[p];
      ackBuffer := ackBuffer - {p};
      if entry.frame.origin == me {
        Notify(BleAck(p));
      }
    }

    method OnMoveUser(f: Frame)
      requires f.body.MoveUser?
      modifies this, usm
      ensures View() == HandleMoveUser(old(View()), f)
    {
      hide SendUserMessage;
      UpdateRouteEntry(f.prev, f.prev, 1);
      gut := gut[f.body.user := f.origin];
      if me != f.body.oldNode {
        if f.body.oldNode !in routeTable {
          return;
        }
        TransmitPacket(f.(prev := me, dest := routeTable[f.body.oldNode].nextHop, hops := Inc8(f.hops)));
        return;
      }
      ghost var start := View().(users := PopInbox(usm.View(), f.body.user));
      var _, msgs := usm.PopUserInbox(f.body.user);
      var i := 0;
      while i < |msgs|
        invariant 0 <= i <= |msgs|
        invariant View() == ForwardInbox(start, msgs[..i])
      {
        assert msgs[..i + 1][..i] == msgs[..i];
        var m := msgs[i];
        SendUserMsg(m.sender, m.to, m.data, m.id, if m.kind == EncryptedMsg then ENC_MSG else 0);
        i := i + 1;
      }
      assert msgs[..i] == msgs;
      usm.RemoveUser(f.body.user);
    }

    method ReceivePacket(f: Frame)
      modifies this, usm
      ensures View() == HandlePacket(old(View()), f)
    {
      if f.id in ackBuffer {
        ackBuffer := ackBuffer - {f.id};
        return;
      }
      if f.id in receivedPacketIDs {
        return;
      }
      receivedPacketIDs := receivedPacketIDs + {f.id};
      if f.prev == me {
        return;
      }
      if f.dest != BROADCAST_ADDR && f.dest != me {
        return;
      }
      match f.body
      case Rreq(_) => OnRreq(f);
      case Rrep(_, _) => OnRrep(f);
      case Rerr(_, _, _, _) => OnRerr(f);
      case Data(_, _) => OnData(f);
      case Info(_, _, _) => OnInfo(f);
      case Ack(_) => OnAck(f);
      case Ureq(_) => OnUreq(f);
      case Urep(_, _, _) => OnUrep(f);
      case Uerr(_, _, _) => OnUerr(f);
      case UserMsg(_, _, _, _) => OnUserMessage(f);
      case MoveUser(_, _) => OnMoveUser(f);
    }

    // ---------- timers ----------

    /** First loop: retransmit overdue entries, take out those out of retries. */
    method SweepAckBuffer() returns (expired: seq<(U32, AckEntry)>)
      modifies this
      ensures Swept(View(), expired) == Sweep(old(View()), Ascending(old(ackBuffer.Keys)))
    {
      hide SweepOne, Spent;
      var ids := Listed(ackBuffer.Keys);
      expired := [];
      var i := 0;
      while i < |ids|
        invariant 0 <= i <= |ids|
        invariant Swept(View(), expired) == Sweep(old(View()), ids[..i])
      {
        assert ids[..i + 1][..i] == ids[..i];
        if ids[i] in ackBuffer {
          var spent := SweepEntry(ids[i]);
          expired := expired + spent;
        }
        i := i + 1;
      }
      assert ids[..i] == ids;
    }

    method SweepEntry(id: U32) returns (spent: seq<(U32, AckEntry)>)
      requires id in ackBuffer
      modifies this
      ensures View() == SweepOne(old(View()), id)
      ensures spent == Spent(old(View()), id)
    {
      spent := [];
      var e := ackBuffer[id];
      if Elapsed(env.clock, e.timestamp) < ACK_TIMEOUT_TICKS {
        return;
      }
      if e.attempts < MAX_RETRANS {
        var ok := EnqueueTxPacket(e.frame);
        if ok {
          ackBuffer := ackBuffer[id := e.(timestamp := env.clock, attempts := e.attempts + 1)];
        }
      } else {
        spent := [(id, e)];
        ackBuffer := ackBuffer - {id};
      }
    }

    method CleanupAckBuffer(garbled: U32 -> U32)
      modifies this
      ensures View() == CleanupAcks(old(View()), garbled)
    {
      hide ReportExpired;
      var expired := SweepAckBuffer();
      ghost var swept := View();
      var i := 0;
      while i < |expired|
        invariant 0 <= i <= |expired|
        invariant View() == ReportAll(swept, expired[..i], garbled)
      {
        assert expired[..i + 1][..i] == expired[..i];
        ReportEntry(expired[i].0, expired[i].1, garbled);
        i := i + 1;
      }
      assert expired[..i] == expired;
    }

    method ReportEntry(id: U32, e: AckEntry, garbled: U32 -> U32)
      modifies this
      ensures View() == ReportExpired(old(View()), id, e, garbled)
    {
      if e.frame.body.Data? || e.frame.body.UserMsg? {
        OriginateFrame(e.frame.origin, e.frame.origin, Rerr(me, me, garbled(id), id));
        Notify(BleAckFailure(id));
      }
    }

    method SendInfo()
      modifies this, usm
      ensures View() == SendBroadcastInfo(old(View()))
    {
      hide TransmitAll, Transmit;
      ghost var start := usm.View();
      var id := Random();
      var hdr := Frame(BROADCAST_ADDR, me, me, id, if env.gwOnline then I_AM_GATEWAY else 0, 0, Info(0, 0, []));
      var added, removed := usm.GetAndClearDiff();
      AscendingEmpty(start.added);
      AscendingEmpty(start.removed);
      if added == [] && removed == [] {
        TransmitPacket(hdr);
      } else {
        SendChunks(hdr, added, removed);
      }
    }

    method SendChunks(hdr: Frame, added: seq<U32>, removed: seq<U32>)
      modifies this
      ensures View() == TransmitAll(old(View()), hdr, Chunks(added, removed))
    {
      hide Transmit, TransmitAll, Chunks;
      assert added[0..] == added && removed[0..] == removed;
      var idxA, idxR := 0, 0;
      while idxA < |added| || idxR < |removed|
        invariant 0 <= idxA <= |added| && 0 <= idxR <= |removed|
        invariant TransmitAll(View(), hdr, Chunks(added[idxA..], removed[idxR..]))
               == TransmitAll(old(View()), hdr, Chunks(added, removed))
        decreases |added| - idxA + |removed| - idxR
      {
        var numA := Min(IDS_PER_PKT, |added| - idxA);
        var remaining := IDS_PER_PKT - numA;
        var numR := if remaining == 0 then 0 else Min(remaining, |removed| - idxR);
        var body := Info(numA, numR, added[idxA..idxA + numA] + removed[idxR..idxR + numR]);
        NextChunk(added, removed, idxA, idxR);
        TransmitAllStep(View(), hdr, body, Chunks(added[idxA + numA..], removed[idxR + numR..]));
        TransmitPacket(hdr.(body := body));
        idxA, idxR := idxA + numA, idxR + numR;
      }
      assert added[idxA..] == [] && removed[idxR..] == [];
      NothingLeft(View(), hdr);
    }
  }

  lemma TransmitAllStep(n: Node, hdr: Frame, b: Body, bs: seq<Body>)
    ensures TransmitAll(n, hdr, [b] + bs) == TransmitAll(Transmit(n, hdr.(body := b)), hdr, bs)
  {
    hide Transmit;
  }

  lemma NothingLeft(n: Node, hdr: Frame)
    ensures TransmitAll(n, hdr, Chunks([], [])) == n
  {
  }

  lemma ChunksUnfold(a: seq<U32>, r: seq<U32>)
    requires a != [] || r != []
    ensures var c := FirstChunk(a, r); Chunks(a, r) == [c] + Chunks(a[c.numAdded..], r[c.numRemoved..])
  {
  }

  lemma TailSlices(s: seq<U32>, i: nat, k: nat)
    requires i + k <= |s|
    ensures s[i..i + k] == s[i..][..k] && s[i + k..] == s[i..][k..]
  {
  }

  /** A chunk cut by advancing indices is the first chunk of what remains. */
  lemma NextChunk(added: seq<U32>, removed: seq<U32>, idxA: nat, idxR: nat)
    requires idxA <= |added| && idxR <= |removed| && (idxA < |added| || idxR < |removed|)
    ensures var numA := Min(IDS_PER_PKT, |added| - idxA);
            var numR := Min(IDS_PER_PKT - numA, |removed| - idxR);
            Chunks(added[idxA..], removed[idxR..])
            == [Info(numA, numR, added[idxA..idxA + numA] + removed[idxR..idxR + numR])]
               + Chunks(added[idxA + numA..], removed[idxR + numR..])
  {
    hide Chunks;
    ChunksUnfold(added[idxA..], removed[idxR..]);
    var numA := Min(IDS_PER_PKT, |added| - idxA);
    var numR := Min(IDS_PER_PKT - numA, |removed| - idxR);
    TailSlices(added, idxA, numA);
    TailSlices(removed, idxR, numR);
  }
}
