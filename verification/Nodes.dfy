/** One router as a value, and what each of its operations does to it. */
module Nodes {
  import opened Packets
  import opened Ordered
  import opened Sessions

  const ROUTE_REPLY_THRESHOLD := 2
  const USER_REPLY_THRESHOLD := 2
  const ACK_TIMEOUT_TICKS := 3000
  const MAX_RETRANS := 3
  const IDS_PER_PKT := 57

  datatype Route = Route(nextHop: U32, hops: U8)
  type Routes = map<U32, Route>

  datatype PendingData = PendingData(id: U32, data: seq<U8>)
  datatype PendingMsg = PendingMsg(id: U32, sender: U32, message: seq<U8>)
  datatype PendingUser = PendingUser(id: U32, sender: U32, destUser: U32, message: seq<U8>)
  datatype MoveReq = MoveReq(user: U32, oldNode: U32)
  datatype AckEntry = AckEntry(frame: Frame, nextHop: U32, timestamp: U32, attempts: U8)

  /** What the node tells its phones and its uplink. */
  datatype Note =
    | BleNode(origin: U32, data: seq<U8>, id: U32)
    | BleBroadcast(data: seq<U8>, id: U32)
    | BleUser(kind: MsgKind, to: U32, sender: U32, data: seq<U8>, id: U32)
    | BleAck(id: U32)
    | BleAckFailure(id: U32)
    | GatewayState(known: bool)
    | Uplink(sender: U32, to: U32, data: seq<U8>)

  /** Outside inputs of one activation: the tick count, the random source,
      whether the k-th offer to the radio queue is accepted, the uplink. */
  datatype Env = Env(clock: U32, random: nat -> U32, accepts: nat -> bool, gwOnline: bool)

  /** Radio queue, random source and logs: every frame handed to the sealing
      step, every frame the queue accepted, every notification. */
  datatype Io = Io(env: Env, drawn: nat, offered: nat, handed: seq<Frame>, air: seq<Frame>, notes: seq<Note>)

  /** Messages waiting for a route or for a user's home. */
  datatype Buffers = Buffers(
    dataBuf: map<U32, seq<PendingData>>,
    msgBuf: map<U32, seq<PendingMsg>>,
    routeBuf: map<U32, seq<PendingUser>>,
    moveBuf: map<U32, seq<MoveReq>>)

  /** Known nodes, the global user table and the gateways (in iteration order). */
  datatype Peers = Peers(known: set<U32>, gut: map<U32, U32>, gateways: seq<U32>, closestGw: U32, closestHops: U8)

  datatype Node = Node(
    me: U32,
    routes: Routes,
    seen: set<U32>,
    acks: map<U32, AckEntry>,
    io: Io,
    bufs: Buffers,
    peers: Peers,
    users: Table)

  ghost function Fresh(me: U32, env: Env): Node {
    Node(me, map[], {}, map[], Io(env, 0, 0, [], [], []), Buffers(map[], map[], map[], map[]),
         Peers({}, map[], [], 0, 255), EMPTY)
  }

  ghost function Draw(n: Node): U32 {
    n.io.env.random(n.io.drawn)
  }

  ghost function Drew(n: Node): Node {
    n.(io := n.io.(drawn := n.io.drawn + 1))
  }

  ghost function Tell(n: Node, note: Note): Node {
    n.(io := n.io.(notes := n.io.notes + [note]))
  }

  function At<T>(m: map<U32, seq<T>>, k: U32): seq<T> {
    if k in m then m[k] else []
  }

  // ---------- routing table ----------

  function Updated(r: Routes, dest: U32, nextHop: U32, hops: U8): Routes {
    if dest !in r || hops < r[dest].hops then r[dest := Route(nextHop, hops)] else r
  }

  function Invalidated(r: Routes, broken: U32, finalDest: U32): Routes {
    map d | d in r && d != broken && d != finalDest && r[d].nextHop != broken :: r[d]
  }

  ghost function UpdateRoute(n: Node, dest: U32, nextHop: U32, hops: U8): Node {
    n.(routes := Updated(n.routes, dest, nextHop, hops))
  }

  // ---------- transmission ----------

  ghost function StoreAck(n: Node, f: Frame, nextHop: U32): Node {
    n.(acks := n.acks[f.id := AckEntry(f, nextHop, n.io.env.clock, 0)])
  }

  /** The frame as the receiver sees it: sealed, opened, encryption bit cleared. */
  function OnAir(f: Frame): Frame {
    f.(flags := ClearEnc(f.flags))
  }

  /** Is the frame remembered until acknowledged? */
  predicate Remembered(r: Routes, f: Frame) {
    f.dest != BROADCAST_ADDR && AsksAck(f.flags) && f.dest in r
  }

  /** Seals the frame, offers it to the radio queue and, if it asks for an
      acknowledgement and its next hop is routable, remembers it. */
  ghost function Transmit(n: Node, f: Frame): Node {
    if Oversize(f.body) then n.(io := n.io.(handed := n.io.handed + [f]))
    else if !n.io.env.accepts(n.io.offered) then n.(io := n.io.(handed := n.io.handed + [f], offered := n.io.offered + 1))
    else n.(io := n.io.(handed := n.io.handed + [f], offered := n.io.offered + 1, air := n.io.air + [OnAir(f)]),
            acks := if Remembered(n.routes, f)
                    then n.acks[f.id := AckEntry(OnAir(f), n.routes[f.dest].nextHop, n.io.env.clock, 0)]
                    else n.acks)
  }

  /** A frame this node originates with a freshly drawn ID. */
  ghost function Originate(n: Node, dest: U32, origin: U32, body: Body): Node {
    Transmit(Drew(n), Frame(dest, n.me, origin, Draw(n), 0, 0, body))
  }

  ghost function SendRreq(n: Node, target: U32): Node {
    Originate(n, BROADCAST_ADDR, n.me, Rreq(target))
  }

  ghost function SendRrep(n: Node, origin: U32, target: U32, nextHop: U32, hops: U8): Node {
    Originate(n, nextHop, origin, Rrep(target, hops))
  }

  ghost function SendRerr(n: Node, broken: U32, origin: U32, originalDest: U32, originalPacket: U32): Node {
    Originate(n, origin, origin, Rerr(n.me, broken, originalDest, originalPacket))
  }

  ghost function SendUreq(n: Node, user: U32): Node {
    Originate(n, BROADCAST_ADDR, n.me, Ureq(user))
  }

  ghost function SendUrep(n: Node, origin: U32, destNode: U32, user: U32, nextHop: U32, hops: U8): Node {
    Originate(n, nextHop, origin, Urep(destNode, user, hops))
  }

  ghost function SendUerr(n: Node, user: U32, node: U32, origin: U32, originalPacket: U32, nextHop: U32): Node {
    Originate(n, nextHop, origin, Uerr(user, node, originalPacket))
  }

  ghost function SendAck(n: Node, dest: U32, originalPacket: U32): Node {
    Originate(n, dest, n.me, Ack(originalPacket))
  }

  // ---------- API calls ----------

  ghost function SendData(n: Node, dest: U32, data: seq<U8>, packetId: U32, flags: U8): Node {
    var id := if packetId == 0 then Draw(n) else packetId;
    var n1 := if packetId == 0 then Drew(n) else n;
    if dest == BROADCAST_ADDR then
      Transmit(n1, Frame(dest, n.me, n.me, id, flags, 0, Data(dest, data)))
    else if dest in n.routes then
      Transmit(n1, Frame(n.routes[dest].nextHop, n.me, n.me, id, flags, 0, Data(dest, data)))
    else
      SendRreq(n1.(bufs := n1.bufs.(dataBuf := n1.bufs.dataBuf[dest := At(n1.bufs.dataBuf, dest) + [PendingData(id, data)]])), dest)
  }

  ghost function GatewayTarget(n: Node): U32
    requires n.peers.gateways != []
  {
    if n.peers.closestGw == 0 then n.peers.gateways[0] else n.peers.closestGw
  }

  ghost function BufferForRoute(n: Node, node: U32, entry: PendingUser): Node {
    SendRreq(n.(bufs := n.bufs.(routeBuf := n.bufs.routeBuf[node := At(n.bufs.routeBuf, node) + [entry]])), node)
  }

  /** Route the message to a known node, or park it and ask for a route. */
  ghost function SendUserVia(n: Node, m: PendingUser, node: U32, flags: U8): Node {
    if node !in n.routes then BufferForRoute(n, node, m)
    else if n.routes[node].nextHop == 0 || node == 0 then n
    else Transmit(n, Frame(n.routes[node].nextHop, n.me, n.me, m.id, flags, 0,
                           UserMsg(m.sender, m.destUser, node, m.message)))
  }

  ghost function SendUserMessage(n: Node, sender: U32, to: U32, message: seq<U8>, packetId: U32, flags: U8): Node {
    var m := PendingUser(if packetId == 0 then Draw(n) else packetId, sender, to, message);
    var n1 := if packetId == 0 then Drew(n) else n;
    if flags == TO_GATEWAY then
      if n.peers.gateways == [] then n1 else SendUserVia(n1, m, GatewayTarget(n1), flags)
    else if to in n.peers.gut then SendUserVia(n1, m, n.peers.gut[to], flags)
    else SendUreq(n1.(bufs := n1.bufs.(msgBuf := n1.bufs.msgBuf[to := At(n1.bufs.msgBuf, to) + [PendingMsg(m.id, sender, message)]])), to)
  }

  ghost function SendMoveUserReq(n: Node, user: U32, oldNode: U32): Node {
    if oldNode in n.routes then
      Originate(n, n.routes[oldNode].nextHop, n.me, MoveUser(user, oldNode))
    else
      SendRreq(n.(bufs := n.bufs.(moveBuf := n.bufs.moveBuf[oldNode := At(n.bufs.moveBuf, oldNode) + [MoveReq(user, oldNode)]])), oldNode)
  }

  // ---------- pending buffers ----------

  ghost function FlushDataItem(n: Node, dest: U32, p: PendingData): Node {
    if dest in n.routes then
      var id := if p.id == 0 then Draw(n) else p.id;
      var n1 := if p.id == 0 then Drew(n) else n;
      Transmit(n1, Frame(n.routes[dest].nextHop, n.me, n.me, id, 0, 0, Data(dest, p.data)))
    else
      n.(bufs := n.bufs.(dataBuf := n.bufs.dataBuf[dest := At(n.bufs.dataBuf, dest) + [p]]))
  }

  ghost function FlushDataItems(n: Node, dest: U32, ps: seq<PendingData>): Node
    decreases |ps|
  {
    if ps == [] then n else FlushDataItem(FlushDataItems(n, dest, ps[..|ps| - 1]), dest, ps[|ps| - 1])
  }

  ghost function FlushData(n: Node, dest: U32): Node {
    FlushDataItems(n.(bufs := n.bufs.(dataBuf := n.bufs.dataBuf - {dest})), dest, At(n.bufs.dataBuf, dest))
  }

  ghost function FlushMoveItems(n: Node, rs: seq<MoveReq>): Node
    decreases |rs|
  {
    if rs == [] then n
    else
      var r := rs[|rs| - 1];
      SendMoveUserReq(FlushMoveItems(n, rs[..|rs| - 1]), r.user, r.oldNode)
  }

  ghost function FlushMove(n: Node, node: U32): Node {
    FlushMoveItems(n.(bufs := n.bufs.(moveBuf := n.bufs.moveBuf - {node})), At(n.bufs.moveBuf, node))
  }

  ghost function FlushUserItems(n: Node, ms: seq<PendingUser>): Node
    decreases |ms|
  {
    if ms == [] then n
    else
      var m := ms[|ms| - 1];
      SendUserMessage(FlushUserItems(n, ms[..|ms| - 1]), m.sender, m.destUser, m.message, m.id, 0)
  }

  ghost function FlushUser(n: Node, node: U32): Node {
    FlushUserItems(n.(bufs := n.bufs.(routeBuf := n.bufs.routeBuf - {node})), At(n.bufs.routeBuf, node))
  }

  ghost function FlushMsgItems(n: Node, user: U32, ms: seq<PendingMsg>): Node
    decreases |ms|
  {
    if ms == [] then n
    else
      var m := ms[|ms| - 1];
      SendUserMessage(FlushMsgItems(n, user, ms[..|ms| - 1]), m.sender, user, m.message, m.id, 0)
  }

  ghost function FlushMsg(n: Node, user: U32): Node {
    FlushMsgItems(n.(bufs := n.bufs.(msgBuf := n.bufs.msgBuf - {user})), user, At(n.bufs.msgBuf, user))
  }

  // ---------- gateways ----------

  function Closest(r: Routes, gws: seq<U32>): (U32, U8)
    decreases |gws|
  {
    if gws == [] then (0, 255)
    else
      var best := Closest(r, gws[..|gws| - 1]);
      var g := gws[|gws| - 1];
      if g in r && r[g].hops < best.1 then (g, r[g].hops) else best
  }

  function Without(s: seq<U32>, x: U32): seq<U32> {
    if s == [] then [] else if s[0] == x then s[1..] else [s[0]] + Without(s[1..], x)
  }

  ghost function Recompute(n: Node): Node {
    var best := Closest(n.routes, n.peers.gateways);
    n.(peers := n.peers.(closestGw := best.0, closestHops := best.1))
  }

  ghost function AddGateway(n: Node, g: U32): Node {
    if g in n.peers.gateways then n else Recompute(n.(peers := n.peers.(gateways := n.peers.gateways + [g])))
  }

  ghost function RemoveGateway(n: Node, g: U32): Node {
    if g !in n.peers.gateways then n
    else
      var n1 := n.(peers := n.peers.(gateways := Without(n.peers.gateways, g)));
      if g == n.peers.closestGw then Recompute(n1) else n1
  }

  // ---------- frame handlers ----------

  ghost function LearnRreq(n: Node, f: Frame): Node {
    UpdateRoute(UpdateRoute(n, f.origin, f.prev, Inc8(f.hops)), f.prev, f.prev, 1)
  }

  ghost function HandleRreq(n0: Node, f: Frame): Node
    requires f.body.Rreq?
  {
    var n := LearnRreq(n0, f);
    var t := f.body.target;
    if t == n.me then SendRrep(n, f.origin, n.me, f.prev, 0)
    else if t in n.routes && n.routes[t].hops >= ROUTE_REPLY_THRESHOLD then
      SendRrep(n, f.origin, t, f.prev, n.routes[t].hops)
    else Transmit(n, f.(prev := n.me, hops := Inc8(f.hops), dest := BROADCAST_ADDR))
  }

  ghost function Flush(n: Node, t: U32): Node {
    if t in n.routes then FlushUser(FlushMove(FlushData(n, t), t), t) else n
  }

  ghost function Backward(n: Node, f: Frame, body: Body): Node {
    if n.me != f.origin && f.origin in n.routes then
      Transmit(n, f.(dest := n.routes[f.origin].nextHop, prev := n.me, hops := Inc8(f.hops), body := body))
    else n
  }

  ghost function LearnRrep(n: Node, f: Frame): Node
    requires f.body.Rrep?
  {
    UpdateRoute(UpdateRoute(n, f.body.target, f.prev, Inc8(f.body.numHops)), f.prev, f.prev, 1)
  }

  ghost function HandleRrep(n0: Node, f: Frame): Node
    requires f.body.Rrep?
  {
    var t := f.body.target;
    Backward(Flush(LearnRrep(n0, f), t), f, Rrep(t, Inc8(f.body.numHops)))
  }

  ghost function LearnRerr(n: Node, f: Frame): Node
    requires f.body.Rerr?
  {
    var b := f.body;
    n.(routes := if b.broken != b.reporter then Invalidated(n.routes, b.broken, b.originalDest)
                 else n.routes - {b.originalDest})
  }

  ghost function HandleRerr(n0: Node, f: Frame): Node
    requires f.body.Rerr?
  {
    Backward(LearnRerr(n0, f), f, f.body)
  }

  ghost function HandleData(n0: Node, f: Frame): Node
    requires f.body.Data?
  {
    var n := if f.flags == REQ_ACK then SendAck(n0, f.prev, f.id) else n0;
    var t := f.body.finalDest;
    var fwd := f.(prev := n.me, hops := Inc8(f.hops));
    if n.me == t then Tell(n, BleNode(f.origin, f.body.data, f.id))
    else if t == BROADCAST_ADDR then
      Transmit(Tell(n, BleBroadcast(f.body.data, f.id)), fwd.(dest := BROADCAST_ADDR))
    else if t !in n.routes then SendRerr(n, n.me, f.origin, t, f.id)
    else Transmit(n, fwd.(dest := n.routes[t].nextHop))
  }

  function AddedIds(b: Body): seq<U32>
    requires b.Info?
  {
    b.ids[..Min(b.numAdded, |b.ids|)]
  }

  function RemovedIds(b: Body): seq<U32>
    requires b.Info?
  {
    var rest := b.ids[Min(b.numAdded, |b.ids|)..];
    rest[..Min(b.numRemoved, |rest|)]
  }

  function Claim(gut: map<U32, U32>, users: seq<U32>, node: U32): map<U32, U32>
    decreases |users|
  {
    if users == [] then gut else Claim(gut, users[..|users| - 1], node)[users[|users| - 1] := node]
  }

  function Unclaim(gut: map<U32, U32>, users: seq<U32>): map<U32, U32>
    decreases |users|
  {
    if users == [] then gut else Unclaim(gut, users[..|users| - 1]) - {users[|users| - 1]}
  }

  ghost function LearnInfo(n0: Node, f: Frame): Node
    requires f.body.Info?
  {
    var n1 := n0.(peers := n0.peers.(known := n0.peers.known + {f.prev, f.origin}));
    var n2 := if f.flags == I_AM_GATEWAY then AddGateway(n1, f.origin) else RemoveGateway(n1, f.origin);
    var n3 := UpdateRoute(Tell(n2, GatewayState(n2.peers.gateways != [])), f.prev, f.prev, 1);
    var n4 := if f.origin != n3.me then UpdateRoute(n3, f.origin, f.prev, Inc8(f.hops)) else n3;
    n4.(peers := n4.peers.(gut := Unclaim(Claim(n4.peers.gut, AddedIds(f.body), f.origin), RemovedIds(f.body))))
  }

  ghost function HandleInfo(n0: Node, f: Frame): Node
    requires f.body.Info?
  {
    var n := LearnInfo(n0, f);
    if Inc8(f.hops) >= MAX_HOPS then n else Transmit(n, f.(prev := n.me, hops := Inc8(f.hops)))
  }

  function KindOf(flags: U8): MsgKind {
    if flags == FROM_GATEWAY then GatewayMsg
    else if flags == ENC_MSG || flags == ENC_ACK then EncryptedMsg
    else PlainMsg
  }

  /** The addressed node hands the message to its user, or keeps it for later. */
  ghost function DeliverUserMsg(n: Node, f: Frame): Node
    requires f.body.UserMsg?
  {
    var b := f.body;
    if !Knows(n.users, b.toUser) then SendUerr(n, b.toUser, n.me, f.origin, f.id, f.prev)
    else if !IsOnline(n.users, b.toUser) then
      n.(users := QueueOffline(n.users, b.toUser, OfflineMsg(KindOf(f.flags), f.id, b.toUser, b.fromUser, b.message)))
    else Tell(n, BleUser(KindOf(f.flags), b.toUser, b.fromUser, b.message, f.id))
  }

  ghost function HandleUserMessage(n0: Node, f: Frame): Node
    requires f.body.UserMsg?
  {
    var n := if f.flags == REQ_ACK || f.flags == ENC_ACK then SendAck(n0, f.prev, f.id) else n0;
    var b := f.body;
    if n.me == b.toNode && f.flags == TO_GATEWAY then
      if n.io.env.gwOnline then Tell(n, Uplink(b.fromUser, b.toUser, b.message)) else n
    else if n.me == b.toNode then DeliverUserMsg(n, f)
    else if b.toNode !in n.routes then SendRerr(n, n.me, f.origin, b.toNode, f.id)
    else Transmit(n, f.(prev := n.me, dest := n.routes[b.toNode].nextHop, hops := Inc8(f.hops)))
  }

  ghost function LearnUreq(n: Node, f: Frame): Node {
    UpdateRoute(UpdateRoute(n, f.prev, f.prev, 1), f.origin, f.prev, Inc8(f.hops))
  }

  ghost function HandleUreq(n0: Node, f: Frame): Node
    requires f.body.Ureq?
  {
    var n := LearnUreq(n0, f);
    var u := f.body.user;
    if Knows(n.users, u) then SendUrep(n, f.origin, n.me, u, f.prev, Inc8(f.hops))
    else if u in n.peers.gut && n.peers.gut[u] in n.routes && n.routes[n.peers.gut[u]].hops >= USER_REPLY_THRESHOLD then
      SendUrep(n, f.origin, n.me, u, f.prev, Add8(Inc8(f.hops), n.routes[n.peers.gut[u]].hops))
    else Transmit(n, f.(prev := n.me, hops := Inc8(f.hops)))
  }

  ghost function LearnUrep(n0: Node, f: Frame): Node
    requires f.body.Urep?
  {
    var b := f.body;
    var n := UpdateRoute(UpdateRoute(n0, f.prev, f.prev, 1), b.destNode, f.prev, Inc8(f.hops));
    n.(peers := n.peers.(gut := n.peers.gut[b.user := b.destNode]))
  }

  ghost function HandleUrep(n0: Node, f: Frame): Node
    requires f.body.Urep?
  {
    var n := LearnUrep(n0, f);
    if n.me == f.origin then FlushMsg(n, f.body.user) else Backward(n, f, f.body)
  }

  ghost function LearnUerr(n0: Node, f: Frame): Node
    requires f.body.Uerr?
  {
    var b := f.body;
    var n := UpdateRoute(n0, f.prev, f.prev, 1);
    if b.user in n.peers.gut && n.peers.gut[b.user] == b.node then n.(peers := n.peers.(gut := n.peers.gut - {b.user})) else n
  }

  ghost function HandleUerr(n0: Node, f: Frame): Node
    requires f.body.Uerr?
  {
    Backward(LearnUerr(n0, f), f, f.body)
  }

  ghost function HandleAck(n: Node, f: Frame): Node
    requires f.body.Ack?
  {
    var p := f.body.originalPacket;
    if p !in n.acks then n
    else
      var n1 := n.(acks := n.acks - {p});
      if n.acks[p].frame.origin == n.me then Tell(n1, BleAck(p)) else n1
  }

  ghost function ForwardInbox(n: Node, ms: seq<OfflineMsg>): Node
    decreases |ms|
  {
    if ms == [] then n
    else
      var m := ms[|ms| - 1];
      SendUserMessage(ForwardInbox(n, ms[..|ms| - 1]), m.sender, m.to, m.data, m.id,
                      if m.kind == EncryptedMsg then ENC_MSG else 0)
  }

  ghost function LearnMove(n0: Node, f: Frame): Node
    requires f.body.MoveUser?
  {
    var n := UpdateRoute(n0, f.prev, f.prev, 1);
    n.(peers := n.peers.(gut := n.peers.gut[f.body.user := f.origin]))
  }

  /** The old home forwards the inbox and forgets the user. */
  ghost function HandOver(n: Node, u: U32): Node {
    var n1 := ForwardInbox(n.(users := PopInbox(n.users, u)), Inbox(n.users, u));
    n1.(users := Remove(n1.users, u))
  }

  ghost function HandleMoveUser(n0: Node, f: Frame): Node
    requires f.body.MoveUser?
  {
    var n := LearnMove(n0, f);
    var b := f.body;
    if n.me == b.oldNode then HandOver(n, b.user)
    else if b.oldNode in n.routes then
      Transmit(n, f.(prev := n.me, dest := n.routes[b.oldNode].nextHop, hops := Inc8(f.hops)))
    else n
  }

  /** What a received frame teaches the node before it answers or forwards. */
  ghost function Learn(n: Node, f: Frame): Node {
    match f.body
    case Rreq(_) => LearnRreq(n, f)
    case Rrep(_, _) => LearnRrep(n, f)
    case Rerr(_, _, _, _) => LearnRerr(n, f)
    case Info(_, _, _) => LearnInfo(n, f)
    case Ureq(_) => LearnUreq(n, f)
    case Urep(_, _, _) => LearnUrep(n, f)
    case Uerr(_, _, _) => LearnUerr(n, f)
    case MoveUser(_, _) => LearnMove(n, f)
    case _ => n
  }

  ghost function Dispatch(n: Node, f: Frame): Node {
    match f.body
    case Rreq(_) => HandleRreq(n, f)
    case Rrep(_, _) => HandleRrep(n, f)
    case Rerr(_, _, _, _) => HandleRerr(n, f)
    case Data(_, _) => HandleData(n, f)
    case Info(_, _, _) => HandleInfo(n, f)
    case Ack(_) => HandleAck(n, f)
    case Ureq(_) => HandleUreq(n, f)
    case Urep(_, _, _) => HandleUrep(n, f)
    case Uerr(_, _, _) => HandleUerr(n, f)
    case UserMsg(_, _, _, _) => HandleUserMessage(n, f)
    case MoveUser(_, _) => HandleMoveUser(n, f)
  }

  /** Does a received frame get past the ID and address checks? */
  ghost predicate Accepts(n: Node, f: Frame) {
    f.id !in n.acks && f.id !in n.seen && f.prev != n.me && (f.dest == BROADCAST_ADDR || f.dest == n.me)
  }

  ghost function HandlePacket(n: Node, f: Frame): Node {
    if f.id in n.acks then n.(acks := n.acks - {f.id})
    else if f.id in n.seen then n
    else
      var n1 := n.(seen := n.seen + {f.id});
      if Accepts(n, f) then Dispatch(n1, f) else n1
  }

  // ---------- timers ----------

  /** uint32_t tick subtraction. */
  function Elapsed(now: U32, since: U32): U32 {
    (now - since) % 0x1_0000_0000
  }

  predicate Overdue(e: AckEntry, now: U32) {
    Elapsed(now, e.timestamp) >= ACK_TIMEOUT_TICKS
  }

  ghost function SweepOne(n: Node, id: U32): Node
    requires id in n.acks
  {
    var e := n.acks[id];
    if !Overdue(e, n.io.env.clock) then n
    else if e.attempts < MAX_RETRANS then
      var o := n.(io := n.io.(offered := n.io.offered + 1));
      if n.io.env.accepts(n.io.offered) then
        o.(io := o.io.(air := n.io.air + [e.frame]),
           acks := n.acks[id := e.(timestamp := n.io.env.clock, attempts := e.attempts + 1)])
      else o
    else n.(acks := n.acks - {id})
  }

  /** The entry itself, if the sweep takes it out. */
  ghost function Spent(n: Node, id: U32): seq<(U32, AckEntry)>
    requires id in n.acks
  {
    if Overdue(n.acks[id], n.io.env.clock) && n.acks[id].attempts >= MAX_RETRANS then [(id, n.acks[id])] else []
  }

  /** The node after the sweep and the entries out of retries, in the order met. */
  datatype Swept = Swept(node: Node, expired: seq<(U32, AckEntry)>)

  ghost function Sweep(n: Node, ids: seq<U32>): Swept
    decreases |ids|
  {
    if ids == [] then Swept(n, [])
    else
      var s := Sweep(n, ids[..|ids| - 1]);
      var id := ids[|ids| - 1];
      if id in s.node.acks then Swept(SweepOne(s.node, id), s.expired + Spent(s.node, id)) else s
  }

  /** Reports one expired entry. The destination is read from the sealed
      bytes, so its value is whatever the ciphertext holds (`garbled`). */
  ghost function ReportExpired(n: Node, id: U32, e: AckEntry, garbled: U32 -> U32): Node {
    if e.frame.body.Data? || e.frame.body.UserMsg? then
      Tell(SendRerr(n, n.me, e.frame.origin, garbled(id), id), BleAckFailure(id))
    else n
  }

  ghost function ReportAll(n: Node, es: seq<(U32, AckEntry)>, garbled: U32 -> U32): Node
    decreases |es|
  {
    if es == [] then n
    else
      var e := es[|es| - 1];
      ReportExpired(ReportAll(n, es[..|es| - 1], garbled), e.0, e.1, garbled)
  }

  ghost function CleanupAcks(n: Node, garbled: U32 -> U32): Node {
    var s := Sweep(n, Ascending(n.acks.Keys));
    ReportAll(s.node, s.expired, garbled)
  }

  /** First as many added IDs as fit, then removed IDs in the room that is left. */
  function FirstChunk(added: seq<U32>, removed: seq<U32>): Body {
    var numA := Min(IDS_PER_PKT, |added|);
    var numR := Min(IDS_PER_PKT - numA, |removed|);
    Info(numA, numR, added[..numA] + removed[..numR])
  }

  function Chunks(added: seq<U32>, removed: seq<U32>): seq<Body>
    decreases |added| + |removed|
  {
    if added == [] && removed == [] then []
    else
      var c := FirstChunk(added, removed);
      [c] + Chunks(added[c.numAdded..], removed[c.numRemoved..])
  }

  ghost function TransmitAll(n: Node, hdr: Frame, bs: seq<Body>): Node
    decreases |bs|
  {
    if bs == [] then n else TransmitAll(Transmit(n, hdr.(body := bs[0])), hdr, bs[1..])
  }

  ghost function InfoHeader(n: Node): Frame {
    Frame(BROADCAST_ADDR, n.me, n.me, Draw(n), if n.io.env.gwOnline then I_AM_GATEWAY else 0, 0, Info(0, 0, []))
  }

  ghost function SendBroadcastInfo(n0: Node): Node {
    var n := Drew(n0).(users := ClearDiff(n0.users));
    var hdr := InfoHeader(n0);
    if n0.users.added == {} && n0.users.removed == {} then Transmit(n, hdr)
    else TransmitAll(n, hdr, Chunks(Ascending(n0.users.added), Ascending(n0.users.removed)))
  }
}
