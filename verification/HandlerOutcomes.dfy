/** What a node does with a received frame, handler by handler, told by what it
    leaves behind: the phone log, the frames handed to the radio, the sessions,
    buffers and tables. Nothing here refers to the handlers themselves. */
module HandlerOutcomes {
  import opened Packets
  import opened Sessions
  import opened Nodes
  import opened Effects
  import opened Network
  import opened Mail
  import opened AnyFlood
  import opened Gateways
  import opened Uplink

  // ---------- vocabulary ----------

  /** The phone log grows by exactly these notes. */
  ghost predicate Says(n: Node, n': Node, notes: seq<Note>) {
    n'.io.notes == n.io.notes + notes
  }

  /** Exactly these frames are handed over to be sealed and sent. */
  ghost predicate Hands(n: Node, n': Node, frames: seq<Frame>) {
    n'.io.handed == n.io.handed + frames
  }

  ghost predicate KeepsStore(n: Node, n': Node) {
    n'.users == n.users && n'.bufs == n.bufs
  }

  /** A frame of the node's own making, under the k-th packet ID drawn from now on. */
  ghost function Made(n: Node, k: nat, dest: U32, origin: U32, body: Body): Frame {
    Frame(dest, n.me, origin, n.io.env.random(n.io.drawn + k), 0, 0, body)
  }

  /** The received frame on its way onward: same ID, origin and flags, counter raised as a byte. */
  function PassedOn(n: Node, f: Frame, dest: U32): Frame {
    Frame(dest, n.me, f.origin, f.id, f.flags, (f.hops + 1) % 256, f.body)
  }

  /** Nothing but sending: these frames handed over, k packet IDs drawn. */
  ghost predicate Sends(n: Node, n': Node, frames: seq<Frame>, k: nat) {
    && n'.me == n.me && n'.routes == n.routes && n'.peers == n.peers && n'.users == n.users && n'.bufs == n.bufs
    && n'.seen == n.seen && n'.io.env == n.io.env && n'.io.notes == n.io.notes
    && n'.io.drawn == n.io.drawn + k && Hands(n, n', frames)
  }

  lemma TransmitSends(n: Node, f: Frame)
    ensures Sends(n, Transmit(n, f), [f], 0)
  {
    hide Oversize, AsksAck, ClearEnc;
  }

  lemma OriginateSends(n: Node, dest: U32, origin: U32, body: Body)
    ensures Sends(n, Originate(n, dest, origin, body), [Made(n, 0, dest, origin, body)], 1)
  {
    TransmitSends(Drew(n), Made(n, 0, dest, origin, body));
    hide Transmit;
  }

  /** The acknowledgement that a frame earns its previous hop. */
  ghost function Receipt(n: Node, f: Frame, asked: bool): seq<Frame> {
    if asked then [Made(n, 0, f.prev, n.me, Ack(f.id))] else []
  }

  lemma ReceiptSends(n: Node, f: Frame, asked: bool)
    ensures Sends(n, if asked then SendAck(n, f.prev, f.id) else n, Receipt(n, f, asked), |Receipt(n, f, asked)|)
  {
    OriginateSends(n, f.prev, n.me, Ack(f.id));
    hide Originate;
  }

  lemma SendsThen(n: Node, m: Node, n': Node, a: seq<Frame>, i: nat, b: seq<Frame>, j: nat)
    requires Sends(n, m, a, i) && Sends(m, n', b, j)
    ensures Sends(n, n', a + b, i + j)
  {
  }

  lemma HandledBy(n: Node, f: Frame)
    requires Accepts(n, f)
    ensures HandlePacket(n, f) == Dispatch(n.(seen := n.seen + {f.id}), f)
  {
    hide Dispatch;
  }

  // ---------- which frames are handled at all ----------

  /** A frame whose ID is pending counts as its acknowledgement, silently; one whose ID was seen is dropped;
      one from this node itself or addressed to another is only remembered. All others are handled. */
  lemma GateIff(n: Node, f: Frame)
    ensures f.id in n.acks ==> HandlePacket(n, f) == n.(acks := n.acks - {f.id})
    ensures f.id !in n.acks && f.id in n.seen ==> HandlePacket(n, f) == n
    ensures f.id !in n.acks && f.id !in n.seen && (f.prev == n.me || f.dest !in {BROADCAST_ADDR, n.me}) ==>
              HandlePacket(n, f) == n.(seen := n.seen + {f.id})
    ensures Accepts(n, f) <==> f.id !in n.acks && f.id !in n.seen && f.prev != n.me && f.dest in {BROADCAST_ADDR, n.me}
    ensures Accepts(n, f) ==> HandlePacket(n, f).seen == n.seen + {f.id} && HandlePacket(n, f).me == n.me
  {
    var m := n.(seen := n.seen + {f.id});
    DispatchSeen(m, f);
    if !f.body.Ack? {
      DispatchEmits(m, f, 0);
      LearnOnlyLearns(m, f);
    }
    hide Dispatch, Learn, NewAir, NewAcks, NewNotes, Undisturbed, Ledger, Clean;
  }

  // ---------- DATA ----------

  lemma DataOutcome(n: Node, f: Frame)
    requires Accepts(n, f) && f.body.Data?
    ensures var n', t, acks := HandlePacket(n, f), f.body.finalDest, Receipt(n, f, f.flags == 0x04);
            && n'.routes == n.routes && n'.peers == n.peers && KeepsStore(n, n')
            && (t == n.me ==> Says(n, n', [BleNode(f.origin, f.body.data, f.id)]) && Hands(n, n', acks))
            && (t != n.me && t == 0xFFFF_FFFF ==>
                  Says(n, n', [BleBroadcast(f.body.data, f.id)]) && Hands(n, n', acks + [PassedOn(n, f, 0xFFFF_FFFF)]))
            && (t != n.me && t != 0xFFFF_FFFF && t in n.routes ==>
                  Says(n, n', []) && Hands(n, n', acks + [PassedOn(n, f, n.routes[t].nextHop)]))
            && (t != n.me && t != 0xFFFF_FFFF && t !in n.routes ==>
                  Says(n, n', []) && Hands(n, n', acks + [Made(n, |acks|, f.origin, f.origin, Rerr(n.me, n.me, t, f.id))]))
  {
    hide Transmit, Originate, SendAck, HandlePacket;
    var m, t := n.(seen := n.seen + {f.id}), f.body.finalDest;
    HandledBy(n, f);
    ReceiptSends(m, f, f.flags == 0x04);
    var a := if f.flags == 0x04 then SendAck(m, f.prev, f.id) else m;
    var onward := PassedOn(m, f, if t == BROADCAST_ADDR then t else if t in n.routes then n.routes[t].nextHop else 0);
    TransmitSends(a, onward);
    TransmitSends(Tell(a, BleBroadcast(f.body.data, f.id)), onward);
    OriginateSends(a, f.origin, f.origin, Rerr(n.me, n.me, t, f.id));
  }

  // ---------- USER_MSG ----------

  /** The kind under which a text is shown or kept, by the frame's flags. */
  function KindFor(flags: U8): MsgKind {
    match flags
    case 0x01 => GatewayMsg
    case 0x10 => EncryptedMsg
    case 0x14 => EncryptedMsg
    case _ => PlainMsg
  }

  /** The inbox of u has received this message last, the oldest of ten making room; all else of the sessions is as it was. */
  ghost predicate Kept(t: Table, t': Table, u: U32, m: OfflineMsg) {
    && u in t.users && t'.added == t.added && t'.removed == t.removed
    && var box := t.users[u].inbox;
       t'.users == t.users[u := UserInfo(t.users[u].handle, t.users[u].connected, (if |box| == 10 then box[1..] else box) + [m])]
  }

  lemma UserMsgOutcome(n: Node, f: Frame)
    requires Accepts(n, f) && f.body.UserMsg?
    ensures var n', b, acks := HandlePacket(n, f), f.body, Receipt(n, f, f.flags == 0x04 || f.flags == 0x14);
            && n'.routes == n.routes && n'.peers == n.peers && n'.bufs == n.bufs
            && (b.toNode == n.me && f.flags == 0x02 ==>
                  && n'.users == n.users && Hands(n, n', acks)
                  && Says(n, n', if n.io.env.gwOnline then [Uplink(b.fromUser, b.toUser, b.message)] else []))
            && (b.toNode == n.me && f.flags != 0x02 && b.toUser !in n.users.users ==>
                  && n'.users == n.users && Says(n, n', [])
                  && Hands(n, n', acks + [Made(n, |acks|, f.prev, f.origin, Uerr(b.toUser, n.me, f.id))]))
            && (b.toNode == n.me && f.flags != 0x02 && b.toUser in n.users.users && n.users.users[b.toUser].connected ==>
                  && n'.users == n.users && Hands(n, n', acks)
                  && Says(n, n', [BleUser(KindFor(f.flags), b.toUser, b.fromUser, b.message, f.id)]))
            && (b.toNode == n.me && f.flags != 0x02 && b.toUser in n.users.users && !n.users.users[b.toUser].connected ==>
                  && Says(n, n', []) && Hands(n, n', acks)
                  && Kept(n.users, n'.users, b.toUser, OfflineMsg(KindFor(f.flags), f.id, b.toUser, b.fromUser, b.message)))
            && (b.toNode != n.me ==>
                  && n'.users == n.users && Says(n, n', [])
                  && Hands(n, n', acks + if b.toNode in n.routes then [PassedOn(n, f, n.routes[b.toNode].nextHop)]
                                         else [Made(n, |acks|, f.origin, f.origin, Rerr(n.me, n.me, b.toNode, f.id))]))
  {
    hide Transmit, Originate, SendAck, HandlePacket, DeliverUserMsg;
    var m, b, asked := n.(seen := n.seen + {f.id}), f.body, f.flags == 0x04 || f.flags == 0x14;
    HandledBy(n, f);
    ReceiptSends(m, f, asked);
    var a := if asked then SendAck(m, f.prev, f.id) else m;
    if b.toNode == n.me && f.flags != 0x02 {
      ArrivalOutcome(a, f);
    } else if b.toNode != n.me {
      if b.toNode in n.routes {
        TransmitSends(a, PassedOn(m, f, n.routes[b.toNode].nextHop));
      }
      OriginateSends(a, f.origin, f.origin, Rerr(n.me, n.me, b.toNode, f.id));
    }
  }

  /** A text for a user of this node: shown to a connected one, kept for one known, refused otherwise. */
  lemma ArrivalOutcome(n: Node, f: Frame)
    requires f.body.UserMsg?
    ensures var n', b := DeliverUserMsg(n, f), f.body;
            && n'.me == n.me && n'.routes == n.routes && n'.peers == n.peers && n'.bufs == n.bufs
            && (b.toUser !in n.users.users ==>
                  && n'.users == n.users && Says(n, n', [])
                  && Hands(n, n', [Made(n, 0, f.prev, f.origin, Uerr(b.toUser, n.me, f.id))]))
            && (b.toUser in n.users.users && n.users.users[b.toUser].connected ==>
                  && n'.users == n.users && Hands(n, n', [])
                  && Says(n, n', [BleUser(KindFor(f.flags), b.toUser, b.fromUser, b.message, f.id)]))
            && (b.toUser in n.users.users && !n.users.users[b.toUser].connected ==>
                  && Says(n, n', []) && Hands(n, n', [])
                  && Kept(n.users, n'.users, b.toUser, OfflineMsg(KindFor(f.flags), f.id, b.toUser, b.fromUser, b.message)))
  {
    hide Originate;
    OriginateSends(n, f.prev, f.origin, Uerr(f.body.toUser, n.me, f.id));
    assert KindOf(f.flags) == KindFor(f.flags);
  }

  // ---------- RREQ and UREQ ----------

  /** The target of a route request answers, and so does whoever has a route to it of at least two hops, each
      toward the node the request came from; everybody else passes it on. */
  lemma RreqOutcome(n: Node, f: Frame)
    requires Accepts(n, f) && f.body.Rreq?
    ensures var n', t := HandlePacket(n, f), f.body.target;
            && Says(n, n', []) && KeepsStore(n, n') && n'.peers == n.peers
            && (t == n.me ==> Hands(n, n', [Made(n, 0, f.prev, f.origin, Rrep(t, 0))]))
            && (t != n.me && t in n'.routes && n'.routes[t].hops >= 2 ==>
                  Hands(n, n', [Made(n, 0, f.prev, f.origin, Rrep(t, n'.routes[t].hops))]))
            && (t != n.me && !(t in n'.routes && n'.routes[t].hops >= 2) ==>
                  Hands(n, n', [PassedOn(n, f, 0xFFFF_FFFF)]))
  {
    hide Transmit, Originate, HandlePacket, Updated;
    HandledBy(n, f);
    var m, t := LearnRreq(n.(seen := n.seen + {f.id}), f), f.body.target;
    OriginateSends(m, f.prev, f.origin, Rrep(m.me, 0));
    if t in m.routes {
      OriginateSends(m, f.prev, f.origin, Rrep(t, m.routes[t].hops));
    }
    TransmitSends(m, PassedOn(m, f, BROADCAST_ADDR));
  }

  /** The home of a user answers a user request, and so does whoever has the user in its table at a node it has
      a route to of at least two hops; everybody else passes it on. */
  lemma UreqOutcome(n: Node, f: Frame)
    requires Accepts(n, f) && f.body.Ureq?
    ensures var n', u := HandlePacket(n, f), f.body.user;
            && Says(n, n', []) && KeepsStore(n, n') && n'.peers == n.peers
            && (u in n.users.users ==>
                  Hands(n, n', [Made(n, 0, f.prev, f.origin, Urep(n.me, u, (f.hops + 1) % 256))]))
            && (u !in n.users.users && u in n.peers.gut && n.peers.gut[u] in n'.routes && n'.routes[n.peers.gut[u]].hops >= 2 ==>
                  Hands(n, n', [Made(n, 0, f.prev, f.origin, Urep(n.me, u, (f.hops + 1 + n'.routes[n.peers.gut[u]].hops) % 256))]))
            && (u !in n.users.users && !(u in n.peers.gut && n.peers.gut[u] in n'.routes && n'.routes[n.peers.gut[u]].hops >= 2) ==>
                  Hands(n, n', [PassedOn(n, f, f.dest)]))
  {
    hide Transmit, Originate, HandlePacket, Updated;
    HandledBy(n, f);
    var m, u := LearnUreq(n.(seen := n.seen + {f.id}), f), f.body.user;
    OriginateSends(m, f.prev, f.origin, Urep(m.me, u, Inc8(f.hops)));
    if u in m.peers.gut && m.peers.gut[u] in m.routes {
      OriginateSends(m, f.prev, f.origin, Urep(m.me, u, Add8(Inc8(f.hops), m.routes[m.peers.gut[u]].hops)));
    }
    TransmitSends(m, PassedOn(m, f, f.dest));
  }

  // ---------- RERR, UERR, and UREP on its way ----------

  /** The frame travels on toward its origin if this node is not the origin and has a route there. */
  ghost function Homeward(n: Node, r: Routes, f: Frame, body: Body): seq<Frame> {
    if f.origin != n.me && f.origin in r then [PassedOn(n, f, r[f.origin].nextHop).(body := body)] else []
  }

  lemma BackwardSends(n: Node, f: Frame, body: Body)
    ensures Sends(n, Backward(n, f, body), Homeward(n, n.routes, f, body), 0)
  {
    if f.origin in n.routes {
      TransmitSends(n, PassedOn(n, f, n.routes[f.origin].nextHop).(body := body));
    }
    hide Transmit;
  }

  lemma RerrOutcome(n: Node, f: Frame)
    requires Accepts(n, f) && f.body.Rerr?
    ensures var n' := HandlePacket(n, f);
            Says(n, n', []) && KeepsStore(n, n') && n'.peers == n.peers && Hands(n, n', Homeward(n, n'.routes, f, f.body))
  {
    hide HandlePacket, Backward, Invalidated;
    HandledBy(n, f);
    BackwardSends(LearnRerr(n.(seen := n.seen + {f.id}), f), f, f.body);
  }

  lemma UerrOutcome(n: Node, f: Frame)
    requires Accepts(n, f) && f.body.Uerr?
    ensures var n', u := HandlePacket(n, f), f.body.user;
            && Says(n, n', []) && KeepsStore(n, n') && Hands(n, n', Homeward(n, n'.routes, f, f.body))
            && n'.peers == n.peers.(gut := n'.peers.gut)
            && n'.peers.gut == if u in n.peers.gut && n.peers.gut[u] == f.body.node then n.peers.gut - {u} else n.peers.gut
  {
    hide HandlePacket, Backward, Updated;
    HandledBy(n, f);
    BackwardSends(LearnUerr(n.(seen := n.seen + {f.id}), f), f, f.body);
  }

  /** A user reply that is for another node: noted and sent on. (`Delivery.UrepDrains` is about the requester.) */
  lemma UrepOutcome(n: Node, f: Frame)
    requires Accepts(n, f) && f.body.Urep? && f.origin != n.me
    ensures var n' := HandlePacket(n, f);
            && Says(n, n', []) && KeepsStore(n, n') && Hands(n, n', Homeward(n, n'.routes, f, f.body))
            && n'.peers == n.peers.(gut := n.peers.gut[f.body.user := f.body.destNode])
  {
    hide HandlePacket, Backward, Updated;
    HandledBy(n, f);
    BackwardSends(LearnUrep(n.(seen := n.seen + {f.id}), f), f, f.body);
  }

  // ---------- BROADCAST_INFO ----------

  /** The phones learn whether a gateway is known; both nodes named become known; the broadcast travels on
      below five hops. */
  lemma InfoOutcome(n: Node, f: Frame)
    requires Accepts(n, f) && f.body.Info?
    ensures var n' := HandlePacket(n, f);
            && Says(n, n', [GatewayState(n'.peers.gateways != [])]) && KeepsStore(n, n')
            && n'.peers.known == n.peers.known + {f.prev, f.origin}
            && Hands(n, n', if (f.hops + 1) % 256 < 5 then [PassedOn(n, f, f.dest)] else [])
  {
    hide Transmit, HandlePacket, LearnInfo;
    HandledBy(n, f);
    var m := n.(seen := n.seen + {f.id});
    InfoLearned(m, f);
    TransmitSends(LearnInfo(m, f), PassedOn(n, f, f.dest));
  }

  lemma InfoLearned(n: Node, f: Frame)
    requires f.body.Info?
    ensures var m := LearnInfo(n, f);
            && m.me == n.me && m.users == n.users && m.bufs == n.bufs && m.io.env == n.io.env
            && m.io.handed == n.io.handed && m.io.drawn == n.io.drawn
            && m.io.notes == n.io.notes + [GatewayState(m.peers.gateways != [])]
            && m.peers.known == n.peers.known + {f.prev, f.origin}
  {
    hide Claim, Unclaim, AddedIds, RemovedIds, AddGateway, RemoveGateway, Updated;
    var n1 := n.(peers := n.peers.(known := n.peers.known + {f.prev, f.origin}));
    GatewayStep(n1, f.origin);
  }

  /** Adding or removing a gateway touches the gateways and the choice only. */
  lemma GatewayStep(n: Node, g: U32)
    ensures forall m | m in {AddGateway(n, g), RemoveGateway(n, g)} ::
              m == n.(peers := n.peers.(gateways := m.peers.gateways, closestGw := m.peers.closestGw, closestHops := m.peers.closestHops))
  {
    hide Closest, Without;
  }

  /** The list of gateways afterwards: with the origin if the frame announces one, without it if not. */
  lemma GatewaysOutcome(n: Node, f: Frame)
    requires Accepts(n, f) && f.body.Info? && ChoiceKnown(n.peers)
    ensures var gws := HandlePacket(n, f).peers.gateways;
            forall x: U32 :: x in gws <==> (x == f.origin && f.flags == 0x03) || (x in n.peers.gateways && x != f.origin)
  {
    hide Transmit, HandlePacket, LearnInfo, AddGateway, RemoveGateway;
    HandledBy(n, f);
    var m := n.(seen := n.seen + {f.id});
    InfoLearned(m, f);
    TransmitSends(LearnInfo(m, f), PassedOn(n, f, f.dest));
    InfoPeers(m, f);
    AddKeeps(m, f.origin);
    RemoveKeeps(m, f.origin);
  }

  // ---------- ACK ----------

  /** An acknowledgement takes the packet it names off the buffer; the phone hears of it exactly if the packet was
      pending and this node's own. */
  lemma AckOutcome(n: Node, f: Frame)
    requires Accepts(n, f) && f.body.Ack?
    ensures var n', p := HandlePacket(n, f), f.body.originalPacket;
            && n'.acks == n.acks - {p} && Hands(n, n', []) && KeepsStore(n, n') && n'.routes == n.routes && n'.peers == n.peers
            && Says(n, n', if p in n.acks && n.acks[p].frame.origin == n.me then [BleAck(p)] else [])
  {
  }

  // ---------- MOVE_USER_REQ ----------

  /** Away from the old home a move request is noted and sent on toward it. (`Delivery.MoveHandsOver` is about the
      old home.) */
  lemma MoveOutcome(n: Node, f: Frame)
    requires Accepts(n, f) && f.body.MoveUser? && f.body.oldNode != n.me
    ensures var n', home := HandlePacket(n, f), f.body.oldNode;
            && Says(n, n', []) && KeepsStore(n, n')
            && n'.peers == n.peers.(gut := n.peers.gut[f.body.user := f.origin])
            && Hands(n, n', if home in n'.routes then [PassedOn(n, f, n'.routes[home].nextHop)] else [])
  {
    hide Transmit, HandlePacket, Updated;
    HandledBy(n, f);
    var m := LearnMove(n.(seen := n.seen + {f.id}), f);
    if f.body.oldNode in m.routes {
      TransmitSends(m, PassedOn(n, f, m.routes[f.body.oldNode].nextHop));
    }
  }

  // ---------- the routing table ----------

  /** The entries for which the frame offers strictly fewer hops than there were are set, to the least it offers, through
      the node it came from; all others are as they were. */
  ghost predicate Takes(me: U32, r: Routes, r': Routes, f: Frame) {
    && (forall x: U32 :: x in r' <==> x in r || exists k: U8 :: Offers(me, f, x, k))
    && (forall x | x in r && (forall k: U8 | Offers(me, f, x, k) :: r[x].hops <= k) :: x in r' && r'[x] == r[x])
    && (forall x: U32, k: U8 | Offers(me, f, x, k) && (x in r ==> k < r[x].hops) && (forall j: U8 | Offers(me, f, x, j) :: k <= j) ::
          x in r' && r'[x] == Route(f.prev, k))
  }

  /** What any handled frame leaves in the table. An error report takes out exactly the routes it names and those
      through a broken node; any other frame improves exactly what it offers to improve. */
  lemma TableOutcome(n: Node, f: Frame)
    requires Accepts(n, f)
    ensures var r, r' := n.routes, HandlePacket(n, f).routes;
            && (f.body.Rerr? ==> forall x: U32 :: x in r' <==> x in r && !Cuts(r, f, x))
            && (f.body.Rerr? ==> forall x | x in r' :: r'[x] == r[x])
            && (!f.body.Rerr? ==> Takes(n.me, r, r', f))
  {
    HearsNearest(n, f);
    hide HandlePacket, Learned, Offers, Cuts, Accepts;
    if f.body.Rerr? {
      CutsExactly(n.me, n.routes, f);
    } else {
      LearnedExactly(n.me, n.routes, f);
    }
  }

  lemma CutsExactly(me: U32, r: Routes, f: Frame)
    requires f.body.Rerr?
    ensures var r' := Learned(me, r, f);
            && (forall x: U32 :: x in r' <==> x in r && !Cuts(r, f, x)) && (forall x | x in r' :: r'[x] == r[x])
            && forall x: U32, k: U8 :: !Offers(me, f, x, k)
  {
  }

  lemma LearnedExactly(me: U32, r: Routes, f: Frame)
    requires !f.body.Rerr?
    ensures Takes(me, r, Learned(me, r, f), f)
  {
    hide Learned, Takes;
    if LessonOf(f).Lesson? && !(f.body.Info? && f.origin == me) {
      var mid, d1, k1, d2, k2 := TwoOffers(me, r, f);
      TwoTaken(me, r, mid, Learned(me, r, f), f, d1, k1, d2, k2);
    } else if f.body.Info? || f.body.Uerr? || f.body.MoveUser? {
      OneOffer(me, r, f);
      TwoTaken(me, r, Learned(me, r, f), Learned(me, r, f), f, f.prev, 1, f.prev, 1);
    } else {
      NoOffer(me, r, f);
      NoneTaken(me, r, f);
    }
  }

  lemma NoneTaken(me: U32, r: Routes, f: Frame)
    requires forall x: U32, k: U8 :: !Offers(me, f, x, k)
    ensures Takes(me, r, r, f)
  {
    hide Offers;
  }

  lemma TwoTaken(me: U32, r: Routes, mid: Routes, r': Routes, f: Frame, d1: U32, k1: U8, d2: U32, k2: U8)
    requires Shorter(r, mid, d1, f.prev, k1) && Shorter(mid, r', d2, f.prev, k2)
    requires forall x: U32, k: U8 :: Offers(me, f, x, k) <==> (x == d1 && k == k1) || (x == d2 && k == k2)
    ensures Takes(me, r, r', f)
  {
    hide Offers;
    assert Offers(me, f, d1, k1) && Offers(me, f, d2, k2);
  }
}
