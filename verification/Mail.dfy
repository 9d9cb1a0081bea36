/** Where a node keeps user messages: waiting for a user's home, waiting for a
    route, or handed to the sealing step; and what sends and flushes do to them. */
module Mail {
  import opened Packets
  import opened Sessions
  import opened Nodes
  import opened Effects
  import opened Network
  import Gateways
  import Ordered

  // ---------- bags of buffered messages ----------

  /** Everything in a buffer, whatever its key. */
  ghost function Bag<T>(m: map<U32, seq<T>>): multiset<T>
    decreases |m|
  {
    if m == map[] then multiset{}
    else
      var k := Ordered.Least(m.Keys);
      multiset(m[k]) + Bag(m - {k})
  }

  lemma {:induction false} BagTake<T>(m: map<U32, seq<T>>, k: U32)
    requires k in m
    ensures Bag(m) == multiset(m[k]) + Bag(m - {k})
    decreases |m|
  {
    var l := Ordered.Least(m.Keys);
    if k != l {
      BagTake(m - {l}, k);
      BagTake(m - {k}, l);
      assert m - {l} - {k} == m - {k} - {l};
    }
  }

  lemma BagPut<T>(m: map<U32, seq<T>>, k: U32, s: seq<T>)
    ensures Bag(m[k := s]) + multiset(At(m, k)) == Bag(m) + multiset(s)
  {
    BagTake(m[k := s], k);
    assert m[k := s] - {k} == m - {k};
    if k in m {
      BagTake(m, k);
    } else {
      assert m - {k} == m;
    }
  }

  lemma BagDrop<T>(m: map<U32, seq<T>>, k: U32)
    ensures Bag(m) == Bag(m - {k}) + multiset(At(m, k))
  {
    if k in m {
      BagTake(m, k);
    } else {
      assert m - {k} == m;
    }
  }

  lemma BagPush<T>(m: map<U32, seq<T>>, k: U32, x: T)
    ensures Bag(m[k := At(m, k) + [x]]) == Bag(m) + multiset{x}
  {
    BagPut(m, k, At(m, k) + [x]);
    hide Bag;
    var old', new' := Bag(m), Bag(m[k := At(m, k) + [x]]);
    assert new' == (new' + multiset(At(m, k))) - multiset(At(m, k));
    assert multiset(At(m, k) + [x]) == multiset(At(m, k)) + multiset{x};
    assert old' + multiset{x} == (old' + multiset{x} + multiset(At(m, k))) - multiset(At(m, k));
  }

  /** Messages waiting for a user's home, with their user written out. */
  function Labelled(u: U32, ms: seq<PendingMsg>): seq<PendingUser> {
    seq(|ms|, i requires 0 <= i < |ms| => PendingUser(ms[i].id, ms[i].sender, u, ms[i].message))
  }

  ghost function ByUser(m: map<U32, seq<PendingMsg>>): map<U32, seq<PendingUser>> {
    map u | u in m :: Labelled(u, m[u])
  }

  lemma ByUserPush(m: map<U32, seq<PendingMsg>>, u: U32, x: PendingMsg)
    ensures Bag(ByUser(m[u := At(m, u) + [x]])) == Bag(ByUser(m)) + multiset{PendingUser(x.id, x.sender, u, x.message)}
  {
    var y := PendingUser(x.id, x.sender, u, x.message);
    assert Labelled(u, At(m, u) + [x]) == At(ByUser(m), u) + [y];
    assert ByUser(m[u := At(m, u) + [x]]) == ByUser(m)[u := At(ByUser(m), u) + [y]];
    BagPush(ByUser(m), u, y);
  }

  lemma ByUserDrop(m: map<U32, seq<PendingMsg>>, u: U32)
    ensures Bag(ByUser(m)) == Bag(ByUser(m - {u})) + multiset(Labelled(u, At(m, u)))
  {
    BagDrop(ByUser(m), u);
    assert ByUser(m - {u}) == ByUser(m) - {u};
    assert At(ByUser(m), u) == Labelled(u, At(m, u));
  }

  // ---------- messages handed over ----------

  /** A user message this node started (a forwarded one has a hop behind it). */
  predicate Mine(me: U32, f: Frame) {
    f.body.UserMsg? && f.origin == me && f.hops == 0
  }

  function AsPending(f: Frame): PendingUser
    requires f.body.UserMsg?
  {
    PendingUser(f.id, f.body.fromUser, f.body.toUser, f.body.message)
  }

  function SentBy(me: U32, fs: seq<Frame>): multiset<PendingUser>
    decreases |fs|
  {
    if fs == [] then multiset{}
    else SentBy(me, fs[..|fs| - 1]) + if Mine(me, fs[|fs| - 1]) then multiset{AsPending(fs[|fs| - 1])} else multiset{}
  }

  lemma SentSnoc(me: U32, fs: seq<Frame>, f: Frame)
    ensures SentBy(me, fs + [f]) == SentBy(me, fs) + if Mine(me, f) then multiset{AsPending(f)} else multiset{}
  {
    assert (fs + [f])[..|fs|] == fs;
  }

  /** Every user message the node is answerable for. */
  ghost function Held(n: Node): multiset<PendingUser> {
    Bag(ByUser(n.bufs.msgBuf)) + Bag(n.bufs.routeBuf) + SentBy(n.me, n.io.handed)
  }

  // ---------- hypotheses on identifiers, kept by every activation ----------

  ghost predicate IdsSet(b: Buffers) {
    && (forall d, i | d in b.msgBuf && 0 <= i < |b.msgBuf[d]| :: b.msgBuf[d][i].id != 0)
    && (forall d, i | d in b.routeBuf && 0 <= i < |b.routeBuf[d]| :: b.routeBuf[d][i].id != 0)
  }

  ghost predicate RoutesSet(r: Routes) {
    forall d | d in r :: r[d].nextHop != 0
  }

  ghost predicate GutSet(gut: map<U32, U32>) {
    forall u | u in gut :: gut[u] != 0
  }

  predicate GatewaysSet(p: Peers) {
    0 !in p.gateways && Gateways.ChoiceKnown(p)
  }

  ghost predicate NodesSet(r: Routes, p: Peers) {
    RoutesSet(r) && GutSet(p.gut) && GatewaysSet(p)
  }

  /** Every inbox holds messages for its own user. */
  ghost predicate Addressed(t: Table) {
    forall u, i | u in t.users && 0 <= i < |t.users[u].inbox| :: t.users[u].inbox[i].to == u
  }

  ghost predicate RandomSet(env: Env) {
    forall k: nat :: env.random(k) != 0
  }

  /** What holds of a node between activations. */
  ghost predicate Settled(n: Node) {
    IdsSet(n.bufs) && NodesSet(n.routes, n.peers) && Addressed(n.users)
  }

  ghost predicate Sound(n: Node) {
    RandomSet(n.io.env) && Settled(n)
  }

  // ---------- sends ----------

  /** Nothing about user messages, tables or sessions has changed. */
  ghost predicate Quiet(n: Node, n': Node) {
    && n'.me == n.me && n'.routes == n.routes && n'.peers == n.peers && n'.users == n.users && n'.io.env == n.io.env
    && n'.bufs.msgBuf == n.bufs.msgBuf && n'.bufs.routeBuf == n.bufs.routeBuf
    && SentBy(n.me, n'.io.handed) == SentBy(n.me, n.io.handed)
  }

  lemma TransmitKeeps(n: Node, f: Frame)
    ensures var n' := Transmit(n, f);
            && n'.me == n.me && n'.routes == n.routes && n'.peers == n.peers && n'.users == n.users && n'.bufs == n.bufs
            && n'.io.env == n.io.env && n'.io.handed == n.io.handed + [f] && n'.io.drawn == n.io.drawn && n'.io.notes == n.io.notes
  {
  }

  lemma TransmitQuiet(n: Node, f: Frame)
    requires !Mine(n.me, f)
    ensures Quiet(n, Transmit(n, f))
  {
    TransmitKeeps(n, f);
    SentSnoc(n.me, n.io.handed, f);
    hide Transmit, SentBy;
  }

  lemma OriginateQuiet(n: Node, dest: U32, origin: U32, body: Body)
    requires !body.UserMsg?
    ensures Quiet(n, Originate(n, dest, origin, body))
  {
    TransmitQuiet(Drew(n), Frame(dest, n.me, origin, Draw(n), 0, 0, body));
    hide Transmit, SentBy;
  }

  function Target(n: Node, to: U32, flags: U8): (r: (bool, U32)) {
    if flags == TO_GATEWAY then
      if n.peers.gateways == [] then (false, 0)
      else (true, if n.peers.closestGw == 0 then n.peers.gateways[0] else n.peers.closestGw)
    else if to in n.peers.gut then (true, n.peers.gut[to])
    else (false, 0)
  }

  /** The message is given up: no gateway is known for a gateway message, or the
      chosen node or the next hop toward it is the unset ID 0. */
  predicate GivenUp(n: Node, to: U32, flags: U8) {
    || (flags == TO_GATEWAY && n.peers.gateways == [])
    || (var t := Target(n, to, flags); t.0 && t.1 in n.routes && (n.routes[t.1].nextHop == 0 || t.1 == 0))
  }

  ghost function Picked(n: Node, packetId: U32): U32 {
    if packetId == 0 then Draw(n) else packetId
  }

  ghost function Told(b: bool, m: PendingUser): multiset<PendingUser> {
    if b then multiset{} else multiset{m}
  }

  lemma ViaHeld(n: Node, m: PendingUser, node: U32, flags: U8)
    ensures Held(SendUserVia(n, m, node, flags))
         == Held(n) + Told(node in n.routes && (n.routes[node].nextHop == 0 || node == 0), m)
  {
    hide Transmit, SentBy, Bag;
    if node !in n.routes {
      var n1 := n.(bufs := n.bufs.(routeBuf := n.bufs.routeBuf[node := At(n.bufs.routeBuf, node) + [m]]));
      BagPush(n.bufs.routeBuf, node, m);
      OriginateQuiet(n1, BROADCAST_ADDR, n1.me, Rreq(node));
    } else if n.routes[node].nextHop != 0 && node != 0 {
      var f := Frame(n.routes[node].nextHop, n.me, n.me, m.id, flags, 0, UserMsg(m.sender, m.destUser, node, m.message));
      TransmitKeeps(n, f);
      SentSnoc(n.me, n.io.handed, f);
    }
  }

  lemma WaitHeld(n: Node, sender: U32, to: U32, message: seq<U8>, id: U32)
    ensures var bufs := n.bufs.(msgBuf := n.bufs.msgBuf[to := At(n.bufs.msgBuf, to) + [PendingMsg(id, sender, message)]]);
            Held(SendUreq(n.(bufs := bufs), to)) == Held(n) + multiset{PendingUser(id, sender, to, message)}
  {
    hide Transmit, SentBy, Bag, ByUser;
    var n1 := n.(bufs := n.bufs.(msgBuf := n.bufs.msgBuf[to := At(n.bufs.msgBuf, to) + [PendingMsg(id, sender, message)]]));
    ByUserPush(n.bufs.msgBuf, to, PendingMsg(id, sender, message));
    OriginateQuiet(n1, BROADCAST_ADDR, n1.me, Ureq(to));
  }

  /** Where a send leaves the message once its ID is settled. */
  ghost function Place(n: Node, m: PendingUser, flags: U8): Node {
    var t := Target(n, m.destUser, flags);
    if t.0 then SendUserVia(n, m, t.1, flags)
    else if flags == TO_GATEWAY then n
    else SendUreq(n.(bufs := n.bufs.(msgBuf :=
      n.bufs.msgBuf[m.destUser := At(n.bufs.msgBuf, m.destUser) + [PendingMsg(m.id, m.sender, m.message)]])), m.destUser)
  }

  ghost function Numbered(n: Node, packetId: U32): Node {
    if packetId == 0 then Drew(n) else n
  }

  lemma SendIsPlace(n: Node, sender: U32, to: U32, message: seq<U8>, packetId: U32, flags: U8)
    ensures SendUserMessage(n, sender, to, message, packetId, flags)
         == Place(Numbered(n, packetId), PendingUser(Picked(n, packetId), sender, to, message), flags)
  {
    hide SendUserVia, SendUreq;
  }

  lemma PlaceHeld(n: Node, m: PendingUser, flags: U8)
    ensures Held(Place(n, m, flags)) == Held(n) + Told(GivenUp(n, m.destUser, flags), m)
  {
    hide SendUserVia, SendUreq, Held;
    var t := Target(n, m.destUser, flags);
    if t.0 {
      ViaHeld(n, m, t.1, flags);
    } else if flags != TO_GATEWAY {
      WaitHeld(n, m.sender, m.destUser, m.message, m.id);
    }
  }

  /** One send: the message is in exactly one more place, unless it is given up. */
  lemma SendHeld(n: Node, sender: U32, to: U32, message: seq<U8>, packetId: U32, flags: U8)
    ensures Held(SendUserMessage(n, sender, to, message, packetId, flags))
         == Held(n) + Told(GivenUp(n, to, flags), PendingUser(Picked(n, packetId), sender, to, message))
  {
    SendIsPlace(n, sender, to, message, packetId, flags);
    PlaceHeld(Numbered(n, packetId), PendingUser(Picked(n, packetId), sender, to, message), flags);
    hide Place, SendUserMessage, Bag, ByUser, SentBy;
  }

  /** Identity, tables, sessions and hypotheses survive a send. */
  ghost predicate Keeps(n: Node, n': Node) {
    && n'.me == n.me && n'.routes == n.routes && n'.peers == n.peers && n'.users == n.users && n'.io.env == n.io.env
    && (IdsSet(n.bufs) ==> IdsSet(n'.bufs))
  }

  lemma SendKeeps(n: Node, sender: U32, to: U32, message: seq<U8>, packetId: U32, flags: U8)
    requires RandomSet(n.io.env)
    ensures Keeps(n, SendUserMessage(n, sender, to, message, packetId, flags))
  {
    SendIsPlace(n, sender, to, message, packetId, flags);
    hide SendUserMessage;
    PlaceKeeps(Numbered(n, packetId), PendingUser(Picked(n, packetId), sender, to, message), flags);
    hide Place, IdsSet;
  }

  lemma PlaceKeeps(n: Node, m: PendingUser, flags: U8)
    requires m.id != 0
    ensures Keeps(n, Place(n, m, flags))
  {
    hide Transmit;
    var t := Target(n, m.destUser, flags);
    if t.0 && t.1 !in n.routes {
      OriginateKeeps(n.(bufs := n.bufs.(routeBuf := n.bufs.routeBuf[t.1 := At(n.bufs.routeBuf, t.1) + [m]])),
                     BROADCAST_ADDR, n.me, Rreq(t.1));
    } else if t.0 {
      TransmitKeeps(n, Frame(n.routes[t.1].nextHop, n.me, n.me, m.id, flags, 0, UserMsg(m.sender, m.destUser, t.1, m.message)));
    } else if flags != TO_GATEWAY {
      OriginateKeeps(n.(bufs := n.bufs.(msgBuf :=
        n.bufs.msgBuf[m.destUser := At(n.bufs.msgBuf, m.destUser) + [PendingMsg(m.id, m.sender, m.message)]])),
        BROADCAST_ADDR, n.me, Ureq(m.destUser));
    }
  }

  lemma OriginateKeeps(n: Node, dest: U32, origin: U32, body: Body)
    ensures var n' := Originate(n, dest, origin, body);
            && n'.me == n.me && n'.routes == n.routes && n'.peers == n.peers && n'.users == n.users
            && n'.bufs == n.bufs && n'.io.env == n.io.env
            && n'.io.handed == n.io.handed + [Frame(dest, n.me, origin, Draw(n), 0, 0, body)]
  {
    TransmitKeeps(Drew(n), Frame(dest, n.me, origin, Draw(n), 0, 0, body));
    hide Transmit;
  }

  /** Under the hypotheses only a gateway message with no gateway known is given up. */
  lemma GivenUpIff(n: Node, to: U32, flags: U8)
    requires NodesSet(n.routes, n.peers)
    ensures GivenUp(n, to, flags) <==> flags == TO_GATEWAY && n.peers.gateways == []
  {
  }

  // ---------- flushes ----------

  lemma {:induction false} FlushMsgItemsHeld(n: Node, u: U32, ms: seq<PendingMsg>)
    requires RandomSet(n.io.env) && NodesSet(n.routes, n.peers) && forall i | 0 <= i < |ms| :: ms[i].id != 0
    ensures Held(FlushMsgItems(n, u, ms)) == Held(n) + multiset(Labelled(u, ms))
    ensures Keeps(n, FlushMsgItems(n, u, ms))
    decreases |ms|
  {
    hide SendUserMessage, Held, IdsSet;
    if ms != [] {
      var k := |ms| - 1;
      var n1 := FlushMsgItems(n, u, ms[..k]);
      FlushMsgItemsHeld(n, u, ms[..k]);
      SendHeld(n1, ms[k].sender, u, ms[k].message, ms[k].id, 0);
      SendKeeps(n1, ms[k].sender, u, ms[k].message, ms[k].id, 0);
      GivenUpIff(n1, u, 0);
      assert Labelled(u, ms) == Labelled(u, ms[..k]) + [PendingUser(ms[k].id, ms[k].sender, u, ms[k].message)];
    }
  }

  lemma FlushMsgHeld(n: Node, u: U32)
    requires Sound(n)
    ensures Held(FlushMsg(n, u)) == Held(n) && Keeps(n, FlushMsg(n, u))
  {
    hide Bag, ByUser, FlushMsgItems, SentBy;
    var n1 := n.(bufs := n.bufs.(msgBuf := n.bufs.msgBuf - {u}));
    ByUserDrop(n.bufs.msgBuf, u);
    FlushMsgItemsHeld(n1, u, At(n.bufs.msgBuf, u));
  }

  lemma {:induction false} FlushUserItemsHeld(n: Node, ms: seq<PendingUser>)
    requires RandomSet(n.io.env) && NodesSet(n.routes, n.peers) && forall i | 0 <= i < |ms| :: ms[i].id != 0
    ensures Held(FlushUserItems(n, ms)) == Held(n) + multiset(ms)
    ensures Keeps(n, FlushUserItems(n, ms))
    decreases |ms|
  {
    hide SendUserMessage, Held, IdsSet;
    if ms != [] {
      var k := |ms| - 1;
      var n1 := FlushUserItems(n, ms[..k]);
      FlushUserItemsHeld(n, ms[..k]);
      SendHeld(n1, ms[k].sender, ms[k].destUser, ms[k].message, ms[k].id, 0);
      SendKeeps(n1, ms[k].sender, ms[k].destUser, ms[k].message, ms[k].id, 0);
      GivenUpIff(n1, ms[k].destUser, 0);
      assert ms == ms[..k] + [ms[k]];
    }
  }

  lemma FlushUserHeld(n: Node, node: U32)
    requires Sound(n)
    ensures Held(FlushUser(n, node)) == Held(n) && Keeps(n, FlushUser(n, node))
  {
    hide Bag, ByUser, FlushUserItems, SentBy;
    var n1 := n.(bufs := n.bufs.(routeBuf := n.bufs.routeBuf - {node}));
    BagDrop(n.bufs.routeBuf, node);
    FlushUserItemsHeld(n1, At(n.bufs.routeBuf, node));
  }

  lemma {:induction false} FlushDataItemsQuiet(n: Node, dest: U32, ps: seq<PendingData>)
    ensures Quiet(n, FlushDataItems(n, dest, ps))
    decreases |ps|
  {
    hide Transmit, SentBy;
    if ps != [] {
      var k := |ps| - 1;
      var n1 := FlushDataItems(n, dest, ps[..k]);
      FlushDataItemsQuiet(n, dest, ps[..k]);
      if dest in n1.routes {
        TransmitQuiet(if ps[k].id == 0 then Drew(n1) else n1,
                      Frame(n1.routes[dest].nextHop, n1.me, n1.me, Picked(n1, ps[k].id), 0, 0, Data(dest, ps[k].data)));
      }
    }
  }

  lemma {:induction false} FlushMoveItemsQuiet(n: Node, rs: seq<MoveReq>)
    ensures Quiet(n, FlushMoveItems(n, rs))
    decreases |rs|
  {
    hide SendMoveUserReq, SentBy;
    if rs != [] {
      var k := |rs| - 1;
      FlushMoveItemsQuiet(n, rs[..k]);
      MoveQuiet(FlushMoveItems(n, rs[..k]), rs[k].user, rs[k].oldNode);
    }
  }

  lemma MoveQuiet(n: Node, user: U32, oldNode: U32)
    ensures Quiet(n, SendMoveUserReq(n, user, oldNode))
  {
    hide Originate, SentBy;
    if oldNode in n.routes {
      OriginateQuiet(n, n.routes[oldNode].nextHop, n.me, MoveUser(user, oldNode));
    } else {
      OriginateQuiet(n.(bufs := n.bufs.(moveBuf := n.bufs.moveBuf[oldNode := At(n.bufs.moveBuf, oldNode) + [MoveReq(user, oldNode)]])),
                     BROADCAST_ADDR, n.me, Rreq(oldNode));
    }
  }

  lemma FlushHeld(n: Node, t: U32)
    requires Sound(n)
    ensures Held(Flush(n, t)) == Held(n) && Keeps(n, Flush(n, t))
  {
    hide FlushUser, SentBy, Bag, ByUser, FlushDataItems, FlushMoveItems;
    if t in n.routes {
      var a := FlushData(n, t);
      FlushDataItemsQuiet(n.(bufs := n.bufs.(dataBuf := n.bufs.dataBuf - {t})), t, At(n.bufs.dataBuf, t));
      var b := FlushMove(a, t);
      FlushMoveItemsQuiet(a.(bufs := a.bufs.(moveBuf := a.bufs.moveBuf - {t})), At(a.bufs.moveBuf, t));
      FlushUserHeld(b, t);
    }
  }

  // ---------- handing a moved user's inbox over ----------

  /** What the node becomes answerable for when it forwards an inbox. */
  ghost function Forwarded(n: Node, ms: seq<OfflineMsg>): multiset<PendingUser>
    decreases |ms|
  {
    if ms == [] then multiset{}
    else
      var m := ms[|ms| - 1];
      Forwarded(n, ms[..|ms| - 1])
      + multiset{PendingUser(Picked(ForwardInbox(n, ms[..|ms| - 1]), m.id), m.sender, m.to, m.data)}
  }

  lemma {:induction false} ForwardInboxHeld(n: Node, ms: seq<OfflineMsg>)
    requires RandomSet(n.io.env) && NodesSet(n.routes, n.peers)
    ensures Held(ForwardInbox(n, ms)) == Held(n) + Forwarded(n, ms)
    ensures Keeps(n, ForwardInbox(n, ms))
    decreases |ms|
  {
    hide SendUserMessage, Held, IdsSet;
    if ms != [] {
      var k := |ms| - 1;
      var n1 := ForwardInbox(n, ms[..k]);
      var flags := if ms[k].kind == EncryptedMsg then ENC_MSG else 0;
      ForwardInboxHeld(n, ms[..k]);
      SendHeld(n1, ms[k].sender, ms[k].to, ms[k].data, ms[k].id, flags);
      SendKeeps(n1, ms[k].sender, ms[k].to, ms[k].data, ms[k].id, flags);
      GivenUpIff(n1, ms[k].to, flags);
    }
  }
}
