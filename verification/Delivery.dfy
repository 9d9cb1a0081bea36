/** What leaves the pending buffers, in which order and where to: the drain after
    a user reply, the handover of a moved user's inbox, and the data flush. */
module Delivery {
  import opened Packets
  import opened Sessions
  import opened Nodes
  import opened Network
  import opened Mail

  // ---------- user reply at the requester ----------

  /** The frames that carry waiting messages to their user's home. */
  ghost function Carried(n: Node, home: U32, ms: seq<PendingUser>, flags: U8): seq<Frame>
    requires home in n.routes
  {
    if home == 0 || n.routes[home].nextHop == 0 then []
    else seq(|ms|, i requires 0 <= i < |ms| => Carrier(n, home, ms[i], flags))
  }

  ghost function Carrier(n: Node, home: U32, m: PendingUser, flags: U8): Frame
    requires home in n.routes
  {
    Frame(n.routes[home].nextHop, n.me, n.me, m.id, flags, 0, UserMsg(m.sender, m.destUser, home, m.message))
  }

  /** A send whose user's home is routed: one more frame, or nothing if an ID is unset. */
  lemma RoutedSend(n: Node, m: PendingUser, flags: U8)
    requires m.destUser in n.peers.gut && n.peers.gut[m.destUser] in n.routes
    requires m.id != 0 && flags != TO_GATEWAY
    ensures var n' := SendUserMessage(n, m.sender, m.destUser, m.message, m.id, flags);
            && n'.bufs == n.bufs && n'.me == n.me && n'.peers == n.peers && n'.routes == n.routes && n'.users == n.users
            && n'.io.handed == n.io.handed + Carried(n, n.peers.gut[m.destUser], [m], flags)
  {
    TransmitKeeps(n, Carrier(n, n.peers.gut[m.destUser], m, flags));
    hide Transmit;
  }

  lemma {:induction false} FlushMsgItemsSent(n: Node, u: U32, ms: seq<PendingMsg>)
    requires u in n.peers.gut && n.peers.gut[u] in n.routes
    requires forall i | 0 <= i < |ms| :: ms[i].id != 0
    ensures var n', home := FlushMsgItems(n, u, ms), n.peers.gut[u];
            && n'.io.handed == n.io.handed + Carried(n, home, Labelled(u, ms), 0)
            && n'.bufs == n.bufs && n'.me == n.me && n'.peers == n.peers && n'.routes == n.routes
    decreases |ms|
  {
    if ms != [] {
      var k, home := |ms| - 1, n.peers.gut[u];
      var n1 := FlushMsgItems(n, u, ms[..k]);
      var m := PendingUser(ms[k].id, ms[k].sender, u, ms[k].message);
      FlushMsgItemsSent(n, u, ms[..k]);
      RoutedSend(n1, m, 0);
      CarriedSnoc(n, n1, home, Labelled(u, ms[..k]), m, 0);
      assert Labelled(u, ms) == Labelled(u, ms[..k]) + [m];
      hide SendUserMessage, Carried, Labelled;
    }
  }

  lemma CarriedSnoc(n: Node, n1: Node, home: U32, ms: seq<PendingUser>, m: PendingUser, flags: U8)
    requires home in n.routes && n1.me == n.me && n1.routes == n.routes
    ensures Carried(n, home, ms + [m], flags) == Carried(n, home, ms, flags) + Carried(n1, home, [m], flags)
  {
  }

  /** When the reply about user u reaches the node that asked: no message for u waits any longer
      and none has been buffered again; each was handed over once, in arrival order, under its own
      packet ID, toward the node the reply names (none if that node or its next hop is the unset ID).
      Everything else that waits is left alone. */
  lemma UrepDrains(n: Node, f: Frame)
    requires f.body.Urep? && f.origin == n.me && IdsSet(n.bufs)
    ensures var n', u, home := HandleUrep(n, f), f.body.user, f.body.destNode;
            && n'.bufs == n.bufs.(msgBuf := n.bufs.msgBuf - {u})
            && u in n'.peers.gut && n'.peers.gut[u] == home && home in n'.routes
            && n'.io.handed == n.io.handed + Carried(n', home, Labelled(u, At(n.bufs.msgBuf, u)), 0)
  {
    var m := LearnUrep(n, f);
    var u := f.body.user;
    assert m.bufs == n.bufs && m.io == n.io && m.me == n.me && m.peers.gut[u] == f.body.destNode && f.body.destNode in m.routes;
    hide FlushMsgItems, LearnUrep;
    FlushMsgItemsSent(m.(bufs := m.bufs.(msgBuf := m.bufs.msgBuf - {u})), u, At(m.bufs.msgBuf, u));
  }

  // ---------- handover of a moved user's inbox ----------

  function Pending(m: OfflineMsg): PendingUser {
    PendingUser(m.id, m.sender, m.to, m.data)
  }

  function AllPending(ms: seq<OfflineMsg>): seq<PendingUser> {
    seq(|ms|, i requires 0 <= i < |ms| => Pending(ms[i]))
  }

  /** End-to-end encrypted messages keep their mark; others are sent plain. */
  function KeptFlag(kind: MsgKind): U8 {
    if kind == EncryptedMsg then ENC_MSG else 0
  }

  ghost function Moved(n: Node, home: U32, ms: seq<OfflineMsg>): seq<Frame>
    requires home in n.routes
  {
    if home == 0 || n.routes[home].nextHop == 0 then []
    else seq(|ms|, i requires 0 <= i < |ms| => Carrier(n, home, Pending(ms[i]), KeptFlag(ms[i].kind)))
  }

  lemma ForwardUnfold(n: Node, ms: seq<OfflineMsg>)
    requires ms != []
    ensures var m := ms[|ms| - 1];
            ForwardInbox(n, ms) == SendUserMessage(ForwardInbox(n, ms[..|ms| - 1]), m.sender, m.to, m.data, m.id, KeptFlag(m.kind))
  {
    hide SendUserMessage;
  }

  lemma SameCarrier(n: Node, n1: Node, m: PendingUser, flags: U8)
    requires n1.me == n.me && n1.routes == n.routes
    ensures forall h: U32 | h in n.routes :: Carrier(n1, h, m, flags) == Carrier(n, h, m, flags)
  {
  }

  lemma {:induction false} InboxSent(n: Node, u: U32, ms: seq<OfflineMsg>)
    requires u in n.peers.gut && n.peers.gut[u] in n.routes
    requires forall i | 0 <= i < |ms| :: ms[i].id != 0 && ms[i].to == u
    ensures var n' := ForwardInbox(n, ms);
            && n'.io.handed == n.io.handed + Moved(n, n.peers.gut[u], ms)
            && n'.bufs == n.bufs && n'.me == n.me && n'.peers == n.peers && n'.routes == n.routes && n'.users == n.users
    decreases |ms|
  {
    if ms != [] {
      var k := |ms| - 1;
      InboxSent(n, u, ms[..k]);
      var n1 := ForwardInbox(n, ms[..k]);
      RoutedSend(n1, Pending(ms[k]), KeptFlag(ms[k].kind));
      hide SendUserMessage, ForwardInbox, Carrier;
      assert Moved(n, n.peers.gut[u], ms)
          == Moved(n, n.peers.gut[u], ms[..k]) + Carried(n1, n.peers.gut[u], [Pending(ms[k])], KeptFlag(ms[k].kind)) by {
        hide Pending, KeptFlag;
        assert forall h: U32 | h in n.routes :: Carrier(n1, h, Pending(ms[k]), KeptFlag(ms[k].kind))
                                             == Carrier(n, h, Pending(ms[k]), KeptFlag(ms[k].kind)) by {
          SameCarrier(n, n1, Pending(ms[k]), KeptFlag(ms[k].kind));
        }
      }
      assert ForwardInbox(n, ms) == SendUserMessage(n1, ms[k].sender, u, ms[k].data, ms[k].id, KeptFlag(ms[k].kind)) by {
        ForwardUnfold(n, ms);
      }
    }
  }

  /** A send whose user's home has no route: the message waits for that route. */
  lemma UnroutedSend(n: Node, m: PendingUser, flags: U8)
    requires m.destUser in n.peers.gut && n.peers.gut[m.destUser] !in n.routes
    requires m.id != 0 && flags != TO_GATEWAY
    ensures Parked(n, SendUserMessage(n, m.sender, m.destUser, m.message, m.id, flags), n.peers.gut[m.destUser], [m])
  {
    hide Transmit;
    var home := n.peers.gut[m.destUser];
    var n1 := n.(bufs := n.bufs.(routeBuf := n.bufs.routeBuf[home := At(n.bufs.routeBuf, home) + [m]]));
    OriginateKeeps(n1, BROADCAST_ADDR, n1.me, Rreq(home));
  }

  ghost predicate AllRequests(s: seq<Frame>, start: nat, target: U32) {
    forall i | start <= i < |s| :: s[i].body == Rreq(target)
  }

  /** n' is n with these messages waiting for a route to `home`, one route request each. */
  ghost predicate Parked(n: Node, n': Node, home: U32, ms: seq<PendingUser>) {
    && n'.me == n.me && n'.peers == n.peers && n'.routes == n.routes && n'.users == n.users
    && n'.bufs == n.bufs.(routeBuf := n'.bufs.routeBuf) && n'.bufs.routeBuf - {home} == n.bufs.routeBuf - {home}
    && At(n'.bufs.routeBuf, home) == At(n.bufs.routeBuf, home) + ms
    && n.io.handed <= n'.io.handed && |n'.io.handed| == |n.io.handed| + |ms|
    && AllRequests(n'.io.handed, |n.io.handed|, home)
  }

  lemma ParkedSnoc(n: Node, n1: Node, n': Node, home: U32, ms: seq<PendingUser>, m: PendingUser)
    requires Parked(n, n1, home, ms) && Parked(n1, n', home, [m])
    ensures Parked(n, n', home, ms + [m])
  {
  }

  lemma {:induction false} InboxParked(n: Node, u: U32, ms: seq<OfflineMsg>)
    requires u in n.peers.gut && n.peers.gut[u] !in n.routes
    requires forall i | 0 <= i < |ms| :: ms[i].id != 0 && ms[i].to == u
    ensures Parked(n, ForwardInbox(n, ms), n.peers.gut[u], AllPending(ms))
    decreases |ms|
  {
    if ms != [] {
      var k, home := |ms| - 1, n.peers.gut[u];
      var n1 := ForwardInbox(n, ms[..k]);
      InboxParked(n, u, ms[..k]);
      ParkedTables(n, n1, home, AllPending(ms[..k]));
      hide Parked, SendUserMessage, KeptFlag, AllPending;
      UnroutedSend(n1, Pending(ms[k]), KeptFlag(ms[k].kind));
      ForwardUnfold(n, ms);
      hide ForwardInbox;
      ParkedSnoc(n, n1, ForwardInbox(n, ms), home, AllPending(ms[..k]), Pending(ms[k]));
      AllPendingSnoc(ms);
    }
  }

  lemma ParkedTables(n: Node, n': Node, home: U32, ms: seq<PendingUser>)
    requires Parked(n, n', home, ms)
    ensures n'.peers == n.peers && n'.routes == n.routes
  {
  }

  lemma AllPendingSnoc(ms: seq<OfflineMsg>)
    requires ms != []
    ensures AllPending(ms) == AllPending(ms[..|ms| - 1]) + [Pending(ms[|ms| - 1])]
  {
    if ms != [] {
      var k := |ms| - 1;
      assert AllPending(ms) == AllPending(ms[..k]) + [Pending(ms[k])];
    }
  }

  /** The old home, on a move request for user u from node `f.origin`: u now belongs to the requester
      and is no longer known here, and the removal will be published; u's inbox is empty; every
      message that was in it, in order and under its own packet ID, was handed over toward the
      requester, or waits for a route to it, each with a route request. */
  lemma MoveHandsOver(n: Node, f: Frame)
    requires f.body.MoveUser? && f.body.oldNode == n.me && Addressed(n.users)
    requires forall m | m in Inbox(n.users, f.body.user) :: m.id != 0
    ensures var n', u, home, box := HandleMoveUser(n, f), f.body.user, f.origin, Inbox(n.users, f.body.user);
            && u in n'.peers.gut && n'.peers.gut[u] == home
            && u !in n'.users.users && u in n'.users.removed && u !in n'.users.added
            && n'.users.users == n.users.users - {u}
            && (home in n'.routes ==>
                  n'.bufs == n.bufs && n'.io.handed == n.io.handed + Moved(n', home, box))
            && (home !in n'.routes ==>
                  && n'.bufs == n.bufs.(routeBuf := n'.bufs.routeBuf)
                  && n'.bufs.routeBuf - {home} == n.bufs.routeBuf - {home}
                  && At(n'.bufs.routeBuf, home) == At(n.bufs.routeBuf, home) + AllPending(box)
                  && n.io.handed <= n'.io.handed && |n'.io.handed| == |n.io.handed| + |box|
                  && AllRequests(n'.io.handed, |n.io.handed|, home))
  {
    var m, u, box := LearnMove(n, f), f.body.user, Inbox(n.users, f.body.user);
    var m1 := m.(users := PopInbox(m.users, u));
    if f.origin in m.routes {
      InboxSent(m1, u, box);
    } else {
      InboxParked(m1, u, box);
    }
    hide ForwardInbox, Updated, At, AllRequests;
  }

  // ---------- data flush, other tasks changing the routing table meanwhile ----------

  /** The flush loop when the routing table may be any `tables[i]` at the i-th item. */
  ghost function FlushUnder(n: Node, dest: U32, ps: seq<PendingData>, tables: seq<Routes>): Node
    requires |tables| == |ps|
    decreases |ps|
  {
    if ps == [] then n
    else
      var k := |ps| - 1;
      FlushDataItem(FlushUnder(n, dest, ps[..k], tables[..k]).(routes := tables[k]), dest, ps[k])
  }

  /** With a table that stays the same this is the flush loop itself. */
  lemma {:induction false} FlushUnderConstant(n: Node, dest: U32, ps: seq<PendingData>, tables: seq<Routes>)
    requires |tables| == |ps| && forall i | 0 <= i < |tables| :: tables[i] == n.routes
    ensures FlushUnder(n, dest, ps, tables) == FlushDataItems(n, dest, ps)
    decreases |ps|
  {
    if ps != [] {
      var k := |ps| - 1;
      FlushUnderConstant(n, dest, ps[..k], tables[..k]);
      FlushDataItemsQuiet(n, dest, ps[..k]);
      hide FlushDataItem, SentBy;
    }
  }

  /** An item that was handed over: by which next hop, under which packet ID. */
  datatype SentItem = SentItem(nextHop: U32, id: U32, item: PendingData)

  /** How many packet IDs were drawn, for items that came without one. */
  function Draws(dest: U32, ps: seq<PendingData>, tables: seq<Routes>): nat
    requires |tables| == |ps|
    decreases |ps|
  {
    if ps == [] then 0
    else
      var k := |ps| - 1;
      Draws(dest, ps[..k], tables[..k]) + if dest in tables[k] && ps[k].id == 0 then 1 else 0
  }

  /** The items met while a route was there, with that route's next hop, under their own packet ID or, if they
      have none, a drawn one. */
  ghost function Sent(n: Node, dest: U32, ps: seq<PendingData>, tables: seq<Routes>): seq<SentItem>
    requires |tables| == |ps|
    decreases |ps|
  {
    if ps == [] then []
    else
      var k := |ps| - 1;
      Sent(n, dest, ps[..k], tables[..k])
      + if dest in tables[k] then
          [SentItem(tables[k][dest].nextHop,
                    if ps[k].id == 0 then n.io.env.random(n.io.drawn + Draws(dest, ps[..k], tables[..k])) else ps[k].id,
                    ps[k])]
        else []
  }

  /** The items met while there was no route. */
  function Kept(dest: U32, ps: seq<PendingData>, tables: seq<Routes>): seq<PendingData>
    requires |tables| == |ps|
    decreases |ps|
  {
    if ps == [] then []
    else
      var k := |ps| - 1;
      Kept(dest, ps[..k], tables[..k]) + if dest in tables[k] then [] else [ps[k]]
  }

  function Items(s: seq<SentItem>): seq<PendingData> {
    seq(|s|, i requires 0 <= i < |s| => s[i].item)
  }

  lemma ItemsSnoc(s: seq<SentItem>, x: SentItem)
    ensures Items(s + [x]) == Items(s) + [x.item]
  {
  }

  lemma ShareStep(a: seq<PendingData>, b: seq<PendingData>, p: seq<PendingData>, x: PendingData)
    requires multiset(a) + multiset(b) == multiset(p)
    ensures multiset(a + [x]) + multiset(b) == multiset(p + [x])
    ensures multiset(a) + multiset(b + [x]) == multiset(p + [x])
  {
  }

  /** Nothing lost, nothing twice: the two lists share out the pending items. */
  lemma {:induction false} SentOrKept(n: Node, dest: U32, ps: seq<PendingData>, tables: seq<Routes>)
    requires |tables| == |ps|
    ensures multiset(Items(Sent(n, dest, ps, tables))) + multiset(Kept(dest, ps, tables)) == multiset(ps)
    decreases |ps|
  {
    if ps != [] {
      var k := |ps| - 1;
      var s, r := Sent(n, dest, ps[..k], tables[..k]), Kept(dest, ps[..k], tables[..k]);
      SentOrKept(n, dest, ps[..k], tables[..k]);
      ShareStep(Items(s), r, ps[..k], ps[k]);
      if dest in tables[k] {
        var x := Sent(n, dest, ps, tables)[|s|];
        ItemsSnoc(s, x);
        assert Sent(n, dest, ps, tables) == s + [x] && x.item == ps[k];
        assert Kept(dest, ps, tables) == r;
      } else {
        assert Sent(n, dest, ps, tables) == s;
        assert Kept(dest, ps, tables) == r + [ps[k]];
      }
      hide Sent, Kept, Items;
      assert ps == ps[..k] + [ps[k]];
    }
  }

  function DataFrames(me: U32, dest: U32, s: seq<SentItem>): seq<Frame> {
    seq(|s|, i requires 0 <= i < |s| => Frame(s[i].nextHop, me, me, s[i].id, 0, 0, Data(dest, s[i].item.data)))
  }

  lemma {:induction false} FlushUnderDone(n: Node, dest: U32, ps: seq<PendingData>, tables: seq<Routes>)
    requires |tables| == |ps|
    ensures var n' := FlushUnder(n, dest, ps, tables);
            && n'.me == n.me && n'.io.env == n.io.env && n'.io.drawn == n.io.drawn + Draws(dest, ps, tables)
            && n'.io.handed == n.io.handed + DataFrames(n.me, dest, Sent(n, dest, ps, tables))
            && At(n'.bufs.dataBuf, dest) == At(n.bufs.dataBuf, dest) + Kept(dest, ps, tables)
            && n'.bufs == n.bufs.(dataBuf := n'.bufs.dataBuf) && n'.bufs.dataBuf - {dest} == n.bufs.dataBuf - {dest}
    decreases |ps|
  {
    if ps != [] {
      var k := |ps| - 1;
      var n1 := FlushUnder(n, dest, ps[..k], tables[..k]).(routes := tables[k]);
      FlushUnderDone(n, dest, ps[..k], tables[..k]);
      if dest in tables[k] {
        var n2 := if ps[k].id == 0 then Drew(n1) else n1;
        var id := if ps[k].id == 0 then Draw(n1) else ps[k].id;
        TransmitKeeps(n2, Frame(tables[k][dest].nextHop, n.me, n.me, id, 0, 0, Data(dest, ps[k].data)));
      }
      hide Transmit;
    }
  }

  /** However the route comes and goes during the flush: each pending item for the destination is
      handed over once, or is back in the buffer; both groups keep their order; nothing else moves. */
  lemma FlushConserves(n: Node, dest: U32, tables: seq<Routes>)
    requires |tables| == |At(n.bufs.dataBuf, dest)|
    ensures var ps := At(n.bufs.dataBuf, dest);
            var n' := FlushUnder(n.(bufs := n.bufs.(dataBuf := n.bufs.dataBuf - {dest})), dest, ps, tables);
            && n'.io.handed == n.io.handed + DataFrames(n.me, dest, Sent(n, dest, ps, tables))
            && At(n'.bufs.dataBuf, dest) == Kept(dest, ps, tables)
            && multiset(Items(Sent(n, dest, ps, tables))) + multiset(Kept(dest, ps, tables)) == multiset(ps)
            && n'.bufs.dataBuf - {dest} == n.bufs.dataBuf - {dest}
  {
    var ps := At(n.bufs.dataBuf, dest);
    var n1 := n.(bufs := n.bufs.(dataBuf := n.bufs.dataBuf - {dest}));
    FlushUnderDone(n1, dest, ps, tables);
    SentOrKept(n, dest, ps, tables);
    SameSent(n, n1, dest, ps, tables);
    hide FlushUnder, Sent, Kept;
  }

  lemma {:induction false} SameSent(n: Node, n1: Node, dest: U32, ps: seq<PendingData>, tables: seq<Routes>)
    requires |tables| == |ps| && n1.io == n.io
    ensures Sent(n1, dest, ps, tables) == Sent(n, dest, ps, tables)
    decreases |ps|
  {
    if ps != [] {
      SameSent(n, n1, dest, ps[..|ps| - 1], tables[..|ps| - 1]);
    }
  }
}
