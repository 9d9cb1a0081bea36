/** No user message is lost or duplicated inside a node: whatever happens, the
    messages the node accepted are those waiting for a user's home, those
    waiting for a route, and those handed to the sealing step. */
module Conservation {
  import opened Packets
  import opened Sessions
  import opened Nodes
  import opened Effects
  import opened Network
  import opened Mail
  import Gateways
  import Ordered

  // ---------- activations ----------

  /** The node IDs that the node learns from a frame are set. */
  predicate Proper(f: Frame) {
    && f.prev != 0
    && (f.body.Info? || f.body.MoveUser? ==> f.origin != 0)
    && (f.body.Urep? ==> f.body.destNode != 0)
  }

  /** Same messages held, hypotheses kept. */
  ghost predicate Conserves(n: Node, n': Node) {
    n'.me == n.me && Held(n') == Held(n) && (Sound(n) ==> Sound(n'))
  }

  lemma QuietConserves(n: Node, n': Node)
    requires Quiet(n, n')
    ensures Conserves(n, n')
  {
  }

  lemma KeepsSound(n: Node, n': Node)
    requires Keeps(n, n') && Sound(n)
    ensures Sound(n')
  {
    hide IdsSet, Addressed, NodesSet;
  }

  lemma LearnConserves(n: Node, f: Frame)
    requires Proper(f)
    ensures Conserves(n, Learn(n, f))
  {
    LearnOnlyLearns(n, f);
    LearnRoutes(n, f);
    RoutesStaySet(n.me, n.routes, f);
    PeersStaySet(n, f);
    hide Bag, ByUser, SentBy, IdsSet, Addressed, Clean, Ledger, Learn, Learned, RoutesSet, GutSet, GatewaysSet;
  }

  lemma RoutesStaySet(me: U32, r: Routes, f: Frame)
    requires Proper(f)
    ensures RoutesSet(r) ==> RoutesSet(Learned(me, r, f))
  {
  }

  lemma PeersStaySet(n: Node, f: Frame)
    requires Proper(f)
    ensures GutSet(n.peers.gut) ==> GutSet(Learn(n, f).peers.gut)
    ensures GatewaysSet(n.peers) ==> GatewaysSet(Learn(n, f).peers)
  {
    if f.body.Info? {
      InfoGut(n, f);
      InfoGateways(n, f);
    }
  }

  lemma {:induction false} ClaimSet(gut: map<U32, U32>, us: seq<U32>, node: U32)
    requires node != 0 && GutSet(gut)
    ensures GutSet(Claim(gut, us, node))
    decreases |us|
  {
    if us != [] {
      ClaimSet(gut, us[..|us| - 1], node);
    }
  }

  lemma {:induction false} UnclaimSet(gut: map<U32, U32>, us: seq<U32>)
    requires GutSet(gut)
    ensures GutSet(Unclaim(gut, us))
    decreases |us|
  {
    if us != [] {
      UnclaimSet(gut, us[..|us| - 1]);
    }
  }

  lemma InfoGut(n: Node, f: Frame)
    requires f.body.Info? && Proper(f)
    ensures GutSet(n.peers.gut) ==> GutSet(LearnInfo(n, f).peers.gut)
  {
    LearnInfoGut(n, f);
    hide LearnInfo;
    if GutSet(n.peers.gut) {
      ClaimSet(n.peers.gut, AddedIds(f.body), f.origin);
      UnclaimSet(Claim(n.peers.gut, AddedIds(f.body), f.origin), RemovedIds(f.body));
    }
  }

  lemma InfoGateways(n: Node, f: Frame)
    requires f.body.Info? && Proper(f)
    ensures GatewaysSet(n.peers) ==> GatewaysSet(LearnInfo(n, f).peers)
  {
    var n1 := n.(peers := n.peers.(known := n.peers.known + {f.prev, f.origin}));
    var n2 := if f.flags == I_AM_GATEWAY then AddGateway(n1, f.origin) else RemoveGateway(n1, f.origin);
    assert LearnInfo(n, f).peers.gateways == n2.peers.gateways && LearnInfo(n, f).peers.closestGw == n2.peers.closestGw by {
      hide Claim, Unclaim, Updated, AddGateway, RemoveGateway, AddedIds, RemovedIds;
    }
    if GatewaysSet(n.peers) {
      Gateways.AddKeeps(n1, f.origin);
      Gateways.RemoveKeeps(n1, f.origin);
    }
    hide LearnInfo, AddGateway, RemoveGateway;
  }

  lemma BackwardQuiet(n: Node, f: Frame, body: Body)
    requires !body.UserMsg?
    ensures Quiet(n, Backward(n, f, body))
  {
    hide Transmit, SentBy;
    if n.me != f.origin && f.origin in n.routes {
      TransmitQuiet(n, f.(dest := n.routes[f.origin].nextHop, prev := n.me, hops := Inc8(f.hops), body := body));
    }
  }

  /** Handlers that neither flush, deliver nor hand over: learn, then send other kinds of frame. */
  lemma PlainQuiet(n: Node, f: Frame)
    requires f.body.Rreq? || f.body.Rerr? || f.body.Info? || f.body.Ureq? || f.body.Uerr?
    ensures Quiet(Learn(n, f), Dispatch(n, f))
  {
    var m := Learn(n, f);
    hide Transmit, SentBy, LearnInfo, UpdateRoute;
    match f.body
    case Rreq(t) =>
      OriginateQuiet(m, f.prev, f.origin, Rrep(m.me, 0));
      if t in m.routes {
        OriginateQuiet(m, f.prev, f.origin, Rrep(t, m.routes[t].hops));
      }
      TransmitQuiet(m, f.(prev := m.me, hops := Inc8(f.hops), dest := BROADCAST_ADDR));
    case Rerr(_, _, _, _) => BackwardQuiet(m, f, f.body);
    case Info(_, _, _) => TransmitQuiet(m, f.(prev := m.me, hops := Inc8(f.hops)));
    case Ureq(u) =>
      OriginateQuiet(m, f.prev, f.origin, Urep(m.me, u, Inc8(f.hops)));
      if u in m.peers.gut && m.peers.gut[u] in m.routes {
        OriginateQuiet(m, f.prev, f.origin, Urep(m.me, u, Add8(Inc8(f.hops), m.routes[m.peers.gut[u]].hops)));
      }
      TransmitQuiet(m, f.(prev := m.me, hops := Inc8(f.hops)));
    case Uerr(_, _, _) => BackwardQuiet(m, f, f.body);
  }

  lemma DataQuiet(n: Node, f: Frame)
    requires f.body.Data?
    ensures Quiet(n, HandleData(n, f))
  {
    hide Transmit, SentBy, Originate;
    OriginateQuiet(n, f.prev, n.me, Ack(f.id));
    var m := if f.flags == REQ_ACK then SendAck(n, f.prev, f.id) else n;
    var t := f.body.finalDest;
    var fwd := f.(prev := m.me, hops := Inc8(f.hops));
    if t == BROADCAST_ADDR {
      TransmitQuiet(Tell(m, BleBroadcast(f.body.data, f.id)), fwd.(dest := BROADCAST_ADDR));
    } else if t !in m.routes {
      OriginateQuiet(m, f.origin, f.origin, Rerr(m.me, m.me, t, f.id));
    } else {
      TransmitQuiet(m, fwd.(dest := m.routes[t].nextHop));
    }
  }

  lemma QueueConserves(n: Node, u: U32, m: OfflineMsg)
    requires m.to == u
    ensures Conserves(n, n.(users := QueueOffline(n.users, u, m)))
  {
    hide Bag, ByUser, SentBy, IdsSet, NodesSet;
  }

  /** A message of its own that the node passes on with its hop counter back at 0. */
  predicate Returns(n: Node, f: Frame) {
    && f.body.UserMsg? && f.origin == n.me && f.hops == 255
    && f.body.toNode != n.me && f.body.toNode in n.routes
  }

  lemma UserMessageHeld(n: Node, f: Frame)
    requires f.body.UserMsg?
    ensures var n' := HandleUserMessage(n, f);
            && n'.me == n.me && (Sound(n) ==> Sound(n'))
            && Held(n') == Held(n) + if Returns(n, f) then multiset{AsPending(f)} else multiset{}
  {
    hide Transmit, SentBy, Originate, Conserves, QueueOffline;
    OriginateQuiet(n, f.prev, n.me, Ack(f.id));
    var b := f.body;
    var m := if f.flags == REQ_ACK || f.flags == ENC_ACK then SendAck(n, f.prev, f.id) else n;
    assert Quiet(n, m);
    if n.me == b.toNode && f.flags != TO_GATEWAY {
      DeliverConserves(n, m, f);
      ConservesMeans(n, HandleUserMessage(n, f));
    } else if n.me != b.toNode && b.toNode in m.routes {
      PassedOnHeld(n, m, f);
    } else {
      if n.me != b.toNode {
        OriginateQuiet(m, f.origin, f.origin, Rerr(m.me, m.me, b.toNode, f.id));
      }
      QuietConserves(n, HandleUserMessage(n, f));
      ConservesMeans(n, HandleUserMessage(n, f));
    }
  }

  lemma ConservesMeans(n: Node, n': Node)
    requires Conserves(n, n')
    ensures n'.me == n.me && Held(n') == Held(n) && (Sound(n) ==> Sound(n'))
  {
  }

  lemma PassedOnHeld(n: Node, m: Node, f: Frame)
    requires f.body.UserMsg? && Quiet(n, m) && n.me != f.body.toNode && f.body.toNode in m.routes
    ensures var n' := Transmit(m, f.(prev := m.me, dest := m.routes[f.body.toNode].nextHop, hops := Inc8(f.hops)));
            && n'.me == n.me && (Sound(n) ==> Sound(n'))
            && Held(n') == Held(n) + if Returns(n, f) then multiset{AsPending(f)} else multiset{}
  {
    var fwd := f.(prev := m.me, dest := m.routes[f.body.toNode].nextHop, hops := Inc8(f.hops));
    TransmitKeeps(m, fwd);
    SentSnoc(m.me, m.io.handed, fwd);
    hide Transmit, SentBy, Bag, ByUser, NodesSet, IdsSet, Addressed, RandomSet;
  }

  lemma DeliverConserves(n: Node, m: Node, f: Frame)
    requires f.body.UserMsg? && Quiet(n, m)
    ensures Conserves(n, DeliverUserMsg(m, f))
  {
    hide SentBy, Originate, QueueOffline, Sound, Held;
    var b := f.body;
    if !Knows(m.users, b.toUser) {
      OriginateQuiet(m, f.prev, f.origin, Uerr(b.toUser, m.me, f.id));
      QuietConserves(n, DeliverUserMsg(m, f));
    } else if !IsOnline(m.users, b.toUser) {
      QuietConserves(n, m);
      QueueConserves(m, b.toUser, OfflineMsg(KindOf(f.flags), f.id, b.toUser, b.fromUser, b.message));
    } else {
      QuietConserves(n, DeliverUserMsg(m, f));
    }
  }

  lemma RrepConserves(n: Node, f: Frame)
    requires f.body.Rrep? && Proper(f) && Sound(n)
    ensures Conserves(n, HandleRrep(n, f))
  {
    hide Sound, Held, Flush, LearnRrep, SentBy, Backward;
    LearnConserves(n, f);
    var m := LearnRrep(n, f);
    FlushHeld(m, f.body.target);
    KeepsSound(m, Flush(m, f.body.target));
    var body := Rrep(f.body.target, Inc8(f.body.numHops));
    BackwardQuiet(Flush(m, f.body.target), f, body);
    QuietConserves(Flush(m, f.body.target), HandleRrep(n, f));
  }

  lemma UrepConserves(n: Node, f: Frame)
    requires f.body.Urep? && Proper(f) && Sound(n)
    ensures Conserves(n, HandleUrep(n, f))
  {
    hide Sound, Held, LearnUrep, FlushMsg, SentBy, Backward;
    LearnConserves(n, f);
    var m := LearnUrep(n, f);
    if m.me == f.origin {
      FlushMsgHeld(m, f.body.user);
      KeepsSound(m, FlushMsg(m, f.body.user));
    } else {
      BackwardQuiet(m, f, f.body);
      QuietConserves(m, HandleUrep(n, f));
    }
  }

  /** What a frame makes the node newly answerable for: the inbox of a user who moved away, or a message
      of its own that it takes for a new one because the hop counter has wrapped. */
  ghost function Inherited(n: Node, f: Frame): multiset<PendingUser> {
    if f.body.MoveUser? && n.me == f.body.oldNode then
      var m := LearnMove(n, f);
      Forwarded(m.(users := PopInbox(m.users, f.body.user)), Inbox(m.users, f.body.user))
    else if Returns(n, f) then multiset{AsPending(f)}
    else multiset{}
  }

  lemma AddressedSmaller(t: Table, u: U32)
    requires Addressed(t)
    ensures Addressed(PopInbox(t, u)) && Addressed(Remove(t, u))
  {
  }

  lemma HandOverHeld(n: Node, u: U32)
    requires Sound(n)
    ensures Held(HandOver(n, u)) == Held(n) + Forwarded(n.(users := PopInbox(n.users, u)), Inbox(n.users, u))
    ensures Sound(HandOver(n, u)) && HandOver(n, u).me == n.me
  {
    hide Bag, ByUser, SentBy, ForwardInbox, Forwarded, NodesSet, IdsSet, Addressed, PopInbox, Remove;
    AddressedSmaller(n.users, u);
    var m := n.(users := PopInbox(n.users, u));
    ForwardInboxHeld(m, Inbox(n.users, u));
    AddressedSmaller(m.users, u);
  }

  lemma MoveHeld(n: Node, f: Frame)
    requires f.body.MoveUser? && Proper(f) && Sound(n)
    ensures Held(HandleMoveUser(n, f)) == Held(n) + Inherited(n, f)
    ensures Sound(HandleMoveUser(n, f)) && HandleMoveUser(n, f).me == n.me
  {
    hide Sound, Held, LearnMove, HandOver, SentBy, Forwarded, Transmit;
    LearnConserves(n, f);
    var m := LearnMove(n, f);
    if n.me == f.body.oldNode {
      HandOverHeld(m, f.body.user);
    } else {
      if f.body.oldNode in m.routes {
        TransmitQuiet(m, f.(prev := m.me, dest := m.routes[f.body.oldNode].nextHop, hops := Inc8(f.hops)));
      }
      QuietConserves(m, HandleMoveUser(n, f));
    }
  }

  lemma AckQuiet(n: Node, f: Frame)
    requires f.body.Ack?
    ensures Quiet(n, HandleAck(n, f))
  {
  }

  lemma DispatchHeld(n: Node, f: Frame)
    requires Proper(f) && Sound(n)
    ensures Held(Dispatch(n, f)) == Held(n) + Inherited(n, f)
    ensures Sound(Dispatch(n, f)) && Dispatch(n, f).me == n.me
  {
    hide Sound, Held, Learn, Quiet, HandleRreq, HandleRrep, HandleRerr, HandleData, HandleInfo, HandleAck, HandleUreq, HandleUrep,
         HandleUerr, HandleUserMessage, HandleMoveUser;
    match f.body
    case Rrep(_, _) => RrepConserves(n, f);
    case Urep(_, _, _) => UrepConserves(n, f);
    case UserMsg(_, _, _, _) => UserMessageHeld(n, f);
    case MoveUser(_, _) => MoveHeld(n, f);
    case Data(_, _) =>
      DataQuiet(n, f);
      QuietConserves(n, HandleData(n, f));
    case Ack(_) =>
      AckQuiet(n, f);
      QuietConserves(n, HandleAck(n, f));
    case _ =>
      LearnConserves(n, f);
      PlainQuiet(n, f);
      QuietConserves(Learn(n, f), Dispatch(n, f));
  }

  lemma {:induction false} TransmitAllQuiet(n: Node, hdr: Frame, bs: seq<Body>)
    requires forall i | 0 <= i < |bs| :: bs[i].Info?
    ensures Quiet(n, TransmitAll(n, hdr, bs))
    decreases |bs|
  {
    hide Transmit, SentBy;
    if bs != [] {
      TransmitQuiet(n, hdr.(body := bs[0]));
      TransmitAllQuiet(Transmit(n, hdr.(body := bs[0])), hdr, bs[1..]);
    }
  }

  lemma BeaconConserves(n: Node)
    ensures Conserves(n, SendBroadcastInfo(n))
  {
    hide Transmit, TransmitAll, Chunks, SentBy, Bag, ByUser;
    var m := Drew(n).(users := ClearDiff(n.users));
    var added, removed := Ordered.Ascending(n.users.added), Ordered.Ascending(n.users.removed);
    ChunksAreInfo(added, removed);
    TransmitQuiet(m, InfoHeader(n));
    TransmitAllQuiet(m, InfoHeader(n), Chunks(added, removed));
  }

  lemma SendDataQuiet(n: Node, dest: U32, data: seq<U8>, packetId: U32, flags: U8)
    ensures Quiet(n, SendData(n, dest, data, packetId, flags))
  {
    hide Transmit, SentBy;
    var id, n1 := Picked(n, packetId), Numbered(n, packetId);
    if dest == BROADCAST_ADDR {
      TransmitQuiet(n1, Frame(dest, n.me, n.me, id, flags, 0, Data(dest, data)));
    } else if dest in n.routes {
      TransmitQuiet(n1, Frame(n.routes[dest].nextHop, n.me, n.me, id, flags, 0, Data(dest, data)));
    } else {
      OriginateQuiet(n1.(bufs := n1.bufs.(dataBuf := n1.bufs.dataBuf[dest := At(n1.bufs.dataBuf, dest) + [PendingData(id, data)]])),
                     BROADCAST_ADDR, n1.me, Rreq(dest));
    }
  }

  lemma SessionConserves(n: Node, call: ApiCall)
    requires call.CallLogin? || call.CallLogout? || call.CallDisconnect? || call.CallPopInbox?
    ensures Conserves(n, Api(n, call))
  {
    hide Bag, ByUser, SentBy, NodesSet, IdsSet;
  }

  lemma SendHeldSound(n: Node, call: ApiCall)
    requires call.CallUserMsg? && Sound(n)
    ensures Held(Api(n, call))
         == Held(n) + Told(GivenUp(n, call.to, call.flags), PendingUser(Picked(n, call.id), call.sender, call.to, call.message))
    ensures Sound(Api(n, call)) && Api(n, call).me == n.me
  {
    hide SendUserMessage;
    SendHeld(n, call.sender, call.to, call.message, call.id, call.flags);
    SendKeeps(n, call.sender, call.to, call.message, call.id, call.flags);
    KeepsSound(n, Api(n, call));
    hide Held, GivenUp, NodesSet, IdsSet, Addressed;
  }

  lemma ApiConserves(n: Node, call: ApiCall)
    requires !call.CallUserMsg?
    ensures Conserves(n, Api(n, call))
  {
    hide Conserves, Quiet, SendData, SendUserMessage, SendMoveUserReq, SendBroadcastInfo;
    match call
    case CallData(dest, data, id, flags) =>
      SendDataQuiet(n, dest, data, id, flags);
      QuietConserves(n, Api(n, call));
    case CallMove(user, oldNode) =>
      MoveQuiet(n, user, oldNode);
      QuietConserves(n, Api(n, call));
    case CallBeacon => BeaconConserves(n);
    case _ => SessionConserves(n, call);
  }

  lemma {:induction false} SweepQuiet(n: Node, ids: seq<U32>)
    ensures Quiet(n, Sweep(n, ids).node)
    decreases |ids|
  {
    hide SentBy;
    if ids != [] {
      SweepQuiet(n, ids[..|ids| - 1]);
    }
  }

  lemma {:induction false} ReportAllQuiet(n: Node, es: seq<(U32, AckEntry)>, garbled: U32 -> U32)
    ensures Quiet(n, ReportAll(n, es, garbled))
    decreases |es|
  {
    hide SentBy, Originate;
    if es != [] {
      var e := es[|es| - 1];
      var m := ReportAll(n, es[..|es| - 1], garbled);
      ReportAllQuiet(n, es[..|es| - 1], garbled);
      OriginateQuiet(m, e.1.frame.origin, e.1.frame.origin, Rerr(m.me, m.me, garbled(e.0), e.0));
    }
  }

  // ---------- any sequence of activations ----------

  datatype Event =
    | Hear(frame: Frame, env: Env)
    | Ask(call: ApiCall, env: Env)
    | Tick(env: Env, garbled: U32 -> U32)

  ghost predicate Allowed(e: Event) {
    RandomSet(e.env) && (e.Hear? ==> Proper(e.frame))
  }

  ghost function After(n0: Node, e: Event): Node {
    var n := Awake(n0, e.env);
    match e
    case Hear(f, _) => HandlePacket(n, f)
    case Ask(call, _) => Api(n, call)
    case Tick(_, garbled) => CleanupAcks(n, garbled)
  }

  /** The messages the node takes responsibility for in one activation. */
  ghost function Taken(n0: Node, e: Event): multiset<PendingUser> {
    var n := Awake(n0, e.env);
    match e
    case Hear(f, _) => if Accepts(n, f) then Inherited(n.(seen := n.seen + {f.id}), f) else multiset{}
    case Ask(call, _) =>
      if call.CallUserMsg? then
        Told(GivenUp(n, call.to, call.flags), PendingUser(Picked(n, call.id), call.sender, call.to, call.message))
      else multiset{}
    case Tick(_, _) => multiset{}
  }

  lemma AwakeHeld(n: Node, env: Env)
    requires Settled(n) && RandomSet(env)
    ensures Sound(Awake(n, env)) && Held(Awake(n, env)) == Held(n)
  {
    hide Bag, ByUser, SentBy, NodesSet, IdsSet, Addressed;
  }

  lemma HearHeld(n: Node, f: Frame)
    requires Sound(n) && Proper(f)
    ensures Held(HandlePacket(n, f)) == Held(n) + if Accepts(n, f) then Inherited(n.(seen := n.seen + {f.id}), f) else multiset{}
    ensures Sound(HandlePacket(n, f)) && HandlePacket(n, f).me == n.me
  {
    var m := n.(seen := n.seen + {f.id});
    assert Held(m) == Held(n) && Sound(m);
    if Accepts(n, f) {
      DispatchHeld(m, f);
    }
    hide Bag, ByUser, SentBy, Dispatch, Inherited, NodesSet, IdsSet, Addressed, RandomSet;
  }

  lemma EventHeld(n: Node, e: Event)
    requires Settled(n) && Allowed(e)
    ensures Held(After(n, e)) == Held(n) + Taken(n, e)
    ensures Settled(After(n, e)) && After(n, e).me == n.me
  {
    EventSound(n, e);
    SoundSettles(After(n, e));
    hide Held, Sound, Settled, After, Taken;
  }

  lemma SoundSettles(n: Node)
    requires Sound(n)
    ensures Settled(n)
  {
  }

  lemma EventSound(n: Node, e: Event)
    requires Settled(n) && Allowed(e)
    ensures Held(After(n, e)) == Held(n) + Taken(n, e)
    ensures Sound(After(n, e)) && After(n, e).me == n.me
  {
    hide Held, Sound, Quiet, HandlePacket, Api, Inherited, GivenUp, Sweep, ReportAll;
    var m := Awake(n, e.env);
    AwakeHeld(n, e.env);
    match e
    case Hear(f, _) => HearHeld(m, f);
    case Ask(call, _) =>
      if call.CallUserMsg? {
        SendHeldSound(m, call);
      } else {
        ApiConserves(m, call);
      }
    case Tick(_, garbled) =>
      var s := Sweep(m, Ordered.Ascending(m.acks.Keys));
      SweepQuiet(m, Ordered.Ascending(m.acks.Keys));
      QuietConserves(m, s.node);
      ReportAllQuiet(s.node, s.expired, garbled);
      QuietConserves(s.node, After(n, e));
  }

  ghost function Play(n: Node, es: seq<Event>): Node
    decreases |es|
  {
    if es == [] then n else After(Play(n, es[..|es| - 1]), es[|es| - 1])
  }

  ghost function AllTaken(n: Node, es: seq<Event>): multiset<PendingUser>
    decreases |es|
  {
    if es == [] then multiset{} else AllTaken(n, es[..|es| - 1]) + Taken(Play(n, es[..|es| - 1]), es[|es| - 1])
  }

  /** Over any sequence of received frames, calls and timer passes, the messages taken in are
      exactly those still waiting for a home, those waiting for a route, and those handed over. */
  lemma {:induction false} MessagesConserved(n: Node, es: seq<Event>)
    requires Settled(n) && forall i | 0 <= i < |es| :: Allowed(es[i])
    ensures Held(Play(n, es)) == Held(n) + AllTaken(n, es)
    ensures Settled(Play(n, es))
    decreases |es|
  {
    hide Held, Settled, After, Taken, Allowed;
    if es != [] {
      MessagesConserved(n, es[..|es| - 1]);
      EventHeld(Play(n, es[..|es| - 1]), es[|es| - 1]);
    }
  }

  /** A node that has just booted: everything it ever took in is in one of the three places. */
  lemma ConservedFromBoot(me: U32, env: Env, es: seq<Event>)
    requires forall i | 0 <= i < |es| :: Allowed(es[i])
    ensures Held(Play(Fresh(me, env), es)) == AllTaken(Fresh(me, env), es)
  {
    assert Held(Fresh(me, env)) == multiset{};
    hide Held, Play, AllTaken;
    MessagesConserved(Fresh(me, env), es);
  }
}
