/** End-to-end integrity: in every run, whatever a phone is shown, an inbox holds
    or the uplink receives was handed in earlier by a call with the same text. */
module Integrity {
  import Ordered
  import opened Packets
  import opened Sessions
  import opened Nodes
  import opened Effects
  import opened Network

  /** What a caller asked to have delivered. */
  datatype Text =
    | UserText(sender: U32, to: U32, message: seq<U8>)
    | NodeText(origin: U32, dest: U32, data: seq<U8>)

  type Book = set<Text>

  // ---------- everything a node holds is in the book ----------

  predicate Says(f: Frame, book: Book) {
    match f.body
    case UserMsg(sender, to, _, message) => UserText(sender, to, message) in book
    case Data(dest, data) => NodeText(f.origin, dest, data) in book
    case _ => true
  }

  ghost predicate NoteOk(me: U32, note: Note, book: Book) {
    match note
    case BleUser(_, to, sender, data, _) => UserText(sender, to, data) in book
    case Uplink(sender, to, data) => UserText(sender, to, data) in book
    case BleNode(origin, data, _) => NodeText(origin, me, data) in book
    case BleBroadcast(data, _) => exists origin: U32 :: NodeText(origin, BROADCAST_ADDR, data) in book
    case _ => true
  }

  ghost predicate NotesOk(me: U32, notes: seq<Note>, book: Book) {
    forall i | 0 <= i < |notes| :: NoteOk(me, notes[i], book)
  }

  ghost predicate AirOk(air: seq<Frame>, book: Book) {
    forall i | 0 <= i < |air| :: Says(air[i], book)
  }

  ghost predicate AcksOk(acks: map<U32, AckEntry>, book: Book) {
    forall k | k in acks :: Says(acks[k].frame, book)
  }

  predicate DataOk(me: U32, dest: U32, ps: seq<PendingData>, book: Book) {
    forall i | 0 <= i < |ps| :: NodeText(me, dest, ps[i].data) in book
  }

  predicate MsgsOk(to: U32, ms: seq<PendingMsg>, book: Book) {
    forall i | 0 <= i < |ms| :: UserText(ms[i].sender, to, ms[i].message) in book
  }

  predicate UsersOk(ms: seq<PendingUser>, book: Book) {
    forall i | 0 <= i < |ms| :: UserText(ms[i].sender, ms[i].destUser, ms[i].message) in book
  }

  predicate InboxOk(ms: seq<OfflineMsg>, book: Book) {
    forall i | 0 <= i < |ms| :: UserText(ms[i].sender, ms[i].to, ms[i].data) in book
  }

  predicate AddressedTo(u: U32, ms: seq<OfflineMsg>) {
    forall i | 0 <= i < |ms| :: ms[i].to == u
  }

  ghost predicate BufsOk(me: U32, b: Buffers, book: Book) {
    && (forall d | d in b.dataBuf :: DataOk(me, d, b.dataBuf[d], book))
    && (forall u | u in b.msgBuf :: MsgsOk(u, b.msgBuf[u], book))
    && (forall d | d in b.routeBuf :: UsersOk(b.routeBuf[d], book))
  }

  ghost predicate InboxesOk(t: Table, book: Book) {
    forall u | u in t.users :: InboxOk(t.users[u].inbox, book) && AddressedTo(u, t.users[u].inbox)
  }

  ghost predicate Vouched(n: Node, book: Book) {
    && AirOk(n.io.air, book) && NotesOk(n.me, n.io.notes, book) && AcksOk(n.acks, book)
    && BufsOk(n.me, n.bufs, book) && InboxesOk(n.users, book)
  }

  // ---------- sends ----------

  lemma TransmitVouched(n: Node, f: Frame, book: Book)
    requires Vouched(n, book) && Says(f, book)
    ensures Vouched(Transmit(n, f), book) && Transmit(n, f).me == n.me && Transmit(n, f).bufs == n.bufs
  {
    hide BufsOk, InboxesOk, NotesOk, Oversize, ClearEnc, AsksAck;
  }

  lemma OriginateVouched(n: Node, dest: U32, origin: U32, body: Body, book: Book)
    requires Vouched(n, book) && !body.UserMsg? && !body.Data?
    ensures Vouched(Originate(n, dest, origin, body), book) && Originate(n, dest, origin, body).me == n.me
  {
    TransmitVouched(Drew(n), Frame(dest, n.me, origin, Draw(n), 0, 0, body), book);
    hide Transmit, AirOk, NotesOk, AcksOk, BufsOk, InboxesOk;
  }

  lemma TellVouched(n: Node, note: Note, book: Book)
    requires Vouched(n, book) && NoteOk(n.me, note, book)
    ensures Vouched(Tell(n, note), book)
  {
    hide AirOk, AcksOk, BufsOk, InboxesOk, NoteOk;
  }

  lemma BuffersVouched(n: Node, bufs: Buffers, book: Book)
    requires Vouched(n, book) && BufsOk(n.me, bufs, book)
    ensures Vouched(n.(bufs := bufs), book)
  {
    hide AirOk, NotesOk, AcksOk, InboxesOk, BufsOk;
  }

  lemma SendDataVouched(n: Node, dest: U32, data: seq<U8>, packetId: U32, flags: U8, book: Book)
    requires Vouched(n, book) && NodeText(n.me, dest, data) in book
    ensures Vouched(SendData(n, dest, data, packetId, flags), book)
  {
    var id := if packetId == 0 then Draw(n) else packetId;
    var n1 := if packetId == 0 then Drew(n) else n;
    assert Vouched(n1, book);
    if dest == BROADCAST_ADDR {
      TransmitVouched(n1, Frame(dest, n.me, n.me, id, flags, 0, Data(dest, data)), book);
    } else if dest in n.routes {
      TransmitVouched(n1, Frame(n.routes[dest].nextHop, n.me, n.me, id, flags, 0, Data(dest, data)), book);
    } else {
      var bufs := n1.bufs.(dataBuf := n1.bufs.dataBuf[dest := At(n1.bufs.dataBuf, dest) + [PendingData(id, data)]]);
      BuffersVouched(n1, bufs, book);
      OriginateVouched(n1.(bufs := bufs), BROADCAST_ADDR, n1.me, Rreq(dest), book);
    }
    hide Vouched, Transmit;
  }

  lemma ViaVouched(n: Node, m: PendingUser, node: U32, flags: U8, book: Book)
    requires Vouched(n, book) && UserText(m.sender, m.destUser, m.message) in book
    ensures Vouched(SendUserVia(n, m, node, flags), book) && SendUserVia(n, m, node, flags).me == n.me
  {
    if node !in n.routes {
      var bufs := n.bufs.(routeBuf := n.bufs.routeBuf[node := At(n.bufs.routeBuf, node) + [m]]);
      BuffersVouched(n, bufs, book);
      OriginateVouched(n.(bufs := bufs), BROADCAST_ADDR, n.me, Rreq(node), book);
    } else {
      TransmitVouched(n, Frame(n.routes[node].nextHop, n.me, n.me, m.id, flags, 0,
                               UserMsg(m.sender, m.destUser, node, m.message)), book);
    }
    hide Vouched, Transmit;
  }

  lemma WaitVouched(n: Node, to: U32, m: PendingMsg, book: Book)
    requires Vouched(n, book) && UserText(m.sender, to, m.message) in book
    ensures var n' := SendUreq(n.(bufs := n.bufs.(msgBuf := n.bufs.msgBuf[to := At(n.bufs.msgBuf, to) + [m]])), to);
            Vouched(n', book) && n'.me == n.me
  {
    var bufs := n.bufs.(msgBuf := n.bufs.msgBuf[to := At(n.bufs.msgBuf, to) + [m]]);
    BuffersVouched(n, bufs, book);
    OriginateVouched(n.(bufs := bufs), BROADCAST_ADDR, n.me, Ureq(to), book);
    hide Vouched, Transmit;
  }

  lemma DrewVouched(n: Node, book: Book)
    requires Vouched(n, book)
    ensures Vouched(Drew(n), book)
  {
    hide AirOk, NotesOk, AcksOk, InboxesOk, BufsOk;
  }

  lemma SendUserVouched(n: Node, sender: U32, to: U32, message: seq<U8>, packetId: U32, flags: U8, book: Book)
    requires Vouched(n, book) && UserText(sender, to, message) in book
    ensures var n' := SendUserMessage(n, sender, to, message, packetId, flags); Vouched(n', book) && n'.me == n.me
  {
    hide Vouched, SendUserVia, SendUreq;
    var m := PendingUser(if packetId == 0 then Draw(n) else packetId, sender, to, message);
    var n1 := if packetId == 0 then Drew(n) else n;
    DrewVouched(n, book);
    if flags == TO_GATEWAY {
      if n.peers.gateways != [] {
        ViaVouched(n1, m, GatewayTarget(n1), flags, book);
      }
    } else if to in n.peers.gut {
      ViaVouched(n1, m, n.peers.gut[to], flags, book);
    } else {
      WaitVouched(n1, to, PendingMsg(m.id, sender, message), book);
    }
  }

  lemma SendMoveVouched(n: Node, user: U32, oldNode: U32, book: Book)
    requires Vouched(n, book)
    ensures Vouched(SendMoveUserReq(n, user, oldNode), book) && SendMoveUserReq(n, user, oldNode).me == n.me
  {
    if oldNode in n.routes {
      OriginateVouched(n, n.routes[oldNode].nextHop, n.me, MoveUser(user, oldNode), book);
    } else {
      var bufs := n.bufs.(moveBuf := n.bufs.moveBuf[oldNode := At(n.bufs.moveBuf, oldNode) + [MoveReq(user, oldNode)]]);
      BuffersVouched(n, bufs, book);
      OriginateVouched(n.(bufs := bufs), BROADCAST_ADDR, n.me, Rreq(oldNode), book);
    }
    hide Vouched, Originate;
  }

  // ---------- flushes ----------

  lemma FlushDataItemVouched(n: Node, dest: U32, p: PendingData, book: Book)
    requires Vouched(n, book) && NodeText(n.me, dest, p.data) in book
    ensures Vouched(FlushDataItem(n, dest, p), book) && FlushDataItem(n, dest, p).me == n.me
  {
    if dest in n.routes {
      DrewVouched(n, book);
      var id := if p.id == 0 then Draw(n) else p.id;
      TransmitVouched(if p.id == 0 then Drew(n) else n,
                      Frame(n.routes[dest].nextHop, n.me, n.me, id, 0, 0, Data(dest, p.data)), book);
    } else {
      BuffersVouched(n, n.bufs.(dataBuf := n.bufs.dataBuf[dest := At(n.bufs.dataBuf, dest) + [p]]), book);
    }
    hide Vouched, Transmit;
  }

  lemma {:induction false} FlushDataItemsVouched(n: Node, dest: U32, ps: seq<PendingData>, book: Book)
    requires Vouched(n, book) && DataOk(n.me, dest, ps, book)
    ensures Vouched(FlushDataItems(n, dest, ps), book) && FlushDataItems(n, dest, ps).me == n.me
    decreases |ps|
  {
    hide Vouched, FlushDataItem;
    if ps != [] {
      FlushDataItemsVouched(n, dest, ps[..|ps| - 1], book);
      FlushDataItemVouched(FlushDataItems(n, dest, ps[..|ps| - 1]), dest, ps[|ps| - 1], book);
    }
  }

  lemma {:induction false} FlushMoveItemsVouched(n: Node, rs: seq<MoveReq>, book: Book)
    requires Vouched(n, book)
    ensures Vouched(FlushMoveItems(n, rs), book) && FlushMoveItems(n, rs).me == n.me
    decreases |rs|
  {
    hide Vouched, SendMoveUserReq;
    if rs != [] {
      FlushMoveItemsVouched(n, rs[..|rs| - 1], book);
      SendMoveVouched(FlushMoveItems(n, rs[..|rs| - 1]), rs[|rs| - 1].user, rs[|rs| - 1].oldNode, book);
    }
  }

  lemma {:induction false} FlushUserItemsVouched(n: Node, ms: seq<PendingUser>, book: Book)
    requires Vouched(n, book) && UsersOk(ms, book)
    ensures Vouched(FlushUserItems(n, ms), book) && FlushUserItems(n, ms).me == n.me
    decreases |ms|
  {
    hide Vouched, SendUserMessage;
    if ms != [] {
      var m := ms[|ms| - 1];
      FlushUserItemsVouched(n, ms[..|ms| - 1], book);
      SendUserVouched(FlushUserItems(n, ms[..|ms| - 1]), m.sender, m.destUser, m.message, m.id, 0, book);
    }
  }

  lemma {:induction false} FlushMsgItemsVouched(n: Node, user: U32, ms: seq<PendingMsg>, book: Book)
    requires Vouched(n, book) && MsgsOk(user, ms, book)
    ensures Vouched(FlushMsgItems(n, user, ms), book) && FlushMsgItems(n, user, ms).me == n.me
    decreases |ms|
  {
    hide Vouched, SendUserMessage;
    if ms != [] {
      var m := ms[|ms| - 1];
      FlushMsgItemsVouched(n, user, ms[..|ms| - 1], book);
      SendUserVouched(FlushMsgItems(n, user, ms[..|ms| - 1]), m.sender, user, m.message, m.id, 0, book);
    }
  }

  lemma {:induction false} ForwardInboxVouched(n: Node, ms: seq<OfflineMsg>, book: Book)
    requires Vouched(n, book) && InboxOk(ms, book)
    ensures Vouched(ForwardInbox(n, ms), book) && ForwardInbox(n, ms).me == n.me
    decreases |ms|
  {
    hide Vouched, SendUserMessage;
    if ms != [] {
      var m := ms[|ms| - 1];
      ForwardInboxVouched(n, ms[..|ms| - 1], book);
      SendUserVouched(ForwardInbox(n, ms[..|ms| - 1]), m.sender, m.to, m.data, m.id,
                      if m.kind == EncryptedMsg then ENC_MSG else 0, book);
    }
  }

  lemma FlushMsgVouched(n: Node, user: U32, book: Book)
    requires Vouched(n, book)
    ensures Vouched(FlushMsg(n, user), book) && FlushMsg(n, user).me == n.me
  {
    var bufs := n.bufs.(msgBuf := n.bufs.msgBuf - {user});
    BuffersVouched(n, bufs, book);
    assert MsgsOk(user, At(n.bufs.msgBuf, user), book);
    hide Vouched;
    FlushMsgItemsVouched(n.(bufs := bufs), user, At(n.bufs.msgBuf, user), book);
  }

  lemma FlushVouched(n: Node, t: U32, book: Book)
    requires Vouched(n, book)
    ensures Vouched(Flush(n, t), book) && Flush(n, t).me == n.me
  {
    if t in n.routes {
      BuffersVouched(n, n.bufs.(dataBuf := n.bufs.dataBuf - {t}), book);
      assert DataOk(n.me, t, At(n.bufs.dataBuf, t), book);
      FlushDataItemsVouched(n.(bufs := n.bufs.(dataBuf := n.bufs.dataBuf - {t})), t, At(n.bufs.dataBuf, t), book);
      var a := FlushData(n, t);
      BuffersVouched(a, a.bufs.(moveBuf := a.bufs.moveBuf - {t}), book);
      FlushMoveItemsVouched(a.(bufs := a.bufs.(moveBuf := a.bufs.moveBuf - {t})), At(a.bufs.moveBuf, t), book);
      var b := FlushMove(a, t);
      FlushUserVouched(b, t, book);
    }
    hide Vouched, FlushDataItems, FlushMoveItems, FlushUser;
  }

  lemma FlushUserVouched(n: Node, t: U32, book: Book)
    requires Vouched(n, book)
    ensures Vouched(FlushUser(n, t), book) && FlushUser(n, t).me == n.me
  {
    var bufs := n.bufs.(routeBuf := n.bufs.routeBuf - {t});
    BuffersVouched(n, bufs, book);
    assert UsersOk(At(n.bufs.routeBuf, t), book);
    hide Vouched;
    FlushUserItemsVouched(n.(bufs := bufs), At(n.bufs.routeBuf, t), book);
  }

  // ---------- frame handlers ----------

  lemma LearnVouched(n: Node, f: Frame, book: Book)
    requires Vouched(n, book)
    ensures Vouched(Learn(n, f), book) && Learn(n, f).me == n.me
  {
    LearnOnlyLearns(n, f);
    var n' := Learn(n, f);
    hide Learn, Clean, Ledger, AirOk, AcksOk, BufsOk, InboxesOk;
    forall i | 0 <= i < |n'.io.notes| ensures NoteOk(n.me, n'.io.notes[i], book) {
      if i < |n.io.notes| {
        assert n'.io.notes[i] == n.io.notes[i];
      }
    }
  }

  lemma BackwardVouched(n: Node, f: Frame, body: Body, book: Book)
    requires Vouched(n, book) && !body.UserMsg? && !body.Data?
    ensures Vouched(Backward(n, f, body), book) && Backward(n, f, body).me == n.me
  {
    if n.me != f.origin && f.origin in n.routes {
      TransmitVouched(n, f.(dest := n.routes[f.origin].nextHop, prev := n.me, hops := Inc8(f.hops), body := body), book);
    }
    hide Vouched, Transmit;
  }

  /** Handlers of route and user discovery, announcements and errors carry no text. */
  lemma PlainVouched(n: Node, f: Frame, book: Book)
    requires Vouched(n, book)
    requires f.body.Rreq? || f.body.Rerr? || f.body.Info? || f.body.Ureq? || f.body.Uerr?
    ensures Vouched(Dispatch(n, f), book) && Dispatch(n, f).me == n.me
  {
    LearnVouched(n, f, book);
    var m := Learn(n, f);
    hide Vouched, Transmit, LearnInfo, UpdateRoute, Originate, Backward;
    match f.body
    case Rreq(t) =>
      OriginateVouched(m, f.prev, f.origin, Rrep(m.me, 0), book);
      if t in m.routes {
        OriginateVouched(m, f.prev, f.origin, Rrep(t, m.routes[t].hops), book);
      }
      TransmitVouched(m, f.(prev := m.me, hops := Inc8(f.hops), dest := BROADCAST_ADDR), book);
    case Rerr(_, _, _, _) => BackwardVouched(m, f, f.body, book);
    case Info(_, _, _) => TransmitVouched(m, f.(prev := m.me, hops := Inc8(f.hops)), book);
    case Ureq(u) =>
      OriginateVouched(m, f.prev, f.origin, Urep(m.me, u, Inc8(f.hops)), book);
      if u in m.peers.gut && m.peers.gut[u] in m.routes {
        OriginateVouched(m, f.prev, f.origin, Urep(m.me, u, Add8(Inc8(f.hops), m.routes[m.peers.gut[u]].hops)), book);
      }
      TransmitVouched(m, f.(prev := m.me, hops := Inc8(f.hops)), book);
    case Uerr(_, _, _) => BackwardVouched(m, f, f.body, book);
  }

  lemma DataVouched(n: Node, f: Frame, book: Book)
    requires Vouched(n, book) && Says(f, book) && f.body.Data?
    ensures Vouched(HandleData(n, f), book) && HandleData(n, f).me == n.me
  {
    OriginateVouched(n, f.prev, n.me, Ack(f.id), book);
    var m := if f.flags == REQ_ACK then SendAck(n, f.prev, f.id) else n;
    hide Vouched, Transmit, Originate;
    var t := f.body.finalDest;
    var fwd := f.(prev := m.me, hops := Inc8(f.hops));
    if n.me == t {
      TellVouched(m, BleNode(f.origin, f.body.data, f.id), book);
    } else if t == BROADCAST_ADDR {
      assert NoteOk(m.me, BleBroadcast(f.body.data, f.id), book);
      TellVouched(m, BleBroadcast(f.body.data, f.id), book);
      TransmitVouched(Tell(m, BleBroadcast(f.body.data, f.id)), fwd.(dest := BROADCAST_ADDR), book);
    } else if t !in m.routes {
      OriginateVouched(m, f.origin, f.origin, Rerr(m.me, m.me, t, f.id), book);
    } else {
      TransmitVouched(m, fwd.(dest := m.routes[t].nextHop), book);
    }
  }

  lemma QueueVouched(n: Node, u: U32, m: OfflineMsg, book: Book)
    requires Vouched(n, book) && UserText(m.sender, m.to, m.data) in book && m.to == u
    ensures Vouched(n.(users := QueueOffline(n.users, u, m)), book)
  {
    hide AirOk, NotesOk, AcksOk, BufsOk;
  }

  lemma DeliverVouched(n: Node, f: Frame, book: Book)
    requires Vouched(n, book) && Says(f, book) && f.body.UserMsg?
    ensures Vouched(DeliverUserMsg(n, f), book) && DeliverUserMsg(n, f).me == n.me
  {
    var b := f.body;
    OriginateVouched(n, f.prev, f.origin, Uerr(b.toUser, n.me, f.id), book);
    QueueVouched(n, b.toUser, OfflineMsg(KindOf(f.flags), f.id, b.toUser, b.fromUser, b.message), book);
    TellVouched(n, BleUser(KindOf(f.flags), b.toUser, b.fromUser, b.message, f.id), book);
    hide Vouched, Originate, QueueOffline;
  }

  lemma UserMessageVouched(n: Node, f: Frame, book: Book)
    requires Vouched(n, book) && Says(f, book) && f.body.UserMsg?
    ensures Vouched(HandleUserMessage(n, f), book) && HandleUserMessage(n, f).me == n.me
  {
    OriginateVouched(n, f.prev, n.me, Ack(f.id), book);
    var m := if f.flags == REQ_ACK || f.flags == ENC_ACK then SendAck(n, f.prev, f.id) else n;
    hide Vouched, Transmit, Originate, DeliverUserMsg;
    var b := f.body;
    if n.me == b.toNode && f.flags == TO_GATEWAY {
      TellVouched(m, Uplink(b.fromUser, b.toUser, b.message), book);
    } else if n.me == b.toNode {
      DeliverVouched(m, f, book);
    } else if b.toNode !in m.routes {
      OriginateVouched(m, f.origin, f.origin, Rerr(m.me, m.me, b.toNode, f.id), book);
    } else {
      TransmitVouched(m, f.(prev := m.me, dest := m.routes[b.toNode].nextHop, hops := Inc8(f.hops)), book);
    }
  }

  lemma TableVouched(n: Node, t: Table, book: Book)
    requires Vouched(n, book) && InboxesOk(t, book)
    ensures Vouched(n.(users := t), book)
  {
    hide AirOk, NotesOk, AcksOk, BufsOk, InboxesOk;
  }

  lemma MoveVouched(n: Node, f: Frame, book: Book)
    requires Vouched(n, book) && f.body.MoveUser?
    ensures Vouched(HandleMoveUser(n, f), book) && HandleMoveUser(n, f).me == n.me
  {
    LearnVouched(n, f, book);
    var m, b := LearnMove(n, f), f.body;
    if n.me == b.oldNode {
      HandOverVouched(m, b.user, book);
    } else if b.oldNode in m.routes {
      TransmitVouched(m, f.(prev := m.me, dest := m.routes[b.oldNode].nextHop, hops := Inc8(f.hops)), book);
    }
    hide Vouched, Transmit, HandOver;
  }

  lemma HandOverVouched(n: Node, u: U32, book: Book)
    requires Vouched(n, book)
    ensures Vouched(HandOver(n, u), book) && HandOver(n, u).me == n.me
  {
    TableVouched(n, PopInbox(n.users, u), book);
    assert InboxOk(Inbox(n.users, u), book);
    ForwardInboxVouched(n.(users := PopInbox(n.users, u)), Inbox(n.users, u), book);
    var m := ForwardInbox(n.(users := PopInbox(n.users, u)), Inbox(n.users, u));
    hide ForwardInbox;
    TableVouched(m, Remove(m.users, u), book);
  }

  lemma RrepVouched(n: Node, f: Frame, book: Book)
    requires Vouched(n, book) && f.body.Rrep?
    ensures Vouched(HandleRrep(n, f), book) && HandleRrep(n, f).me == n.me
  {
    LearnVouched(n, f, book);
    hide Vouched, Flush, Backward, LearnRrep;
    FlushVouched(LearnRrep(n, f), f.body.target, book);
    BackwardVouched(Flush(LearnRrep(n, f), f.body.target), f, Rrep(f.body.target, Inc8(f.body.numHops)), book);
  }

  lemma UrepVouched(n: Node, f: Frame, book: Book)
    requires Vouched(n, book) && f.body.Urep?
    ensures Vouched(HandleUrep(n, f), book) && HandleUrep(n, f).me == n.me
  {
    LearnVouched(n, f, book);
    hide Vouched, FlushMsg, Backward, LearnUrep;
    FlushMsgVouched(LearnUrep(n, f), f.body.user, book);
    BackwardVouched(LearnUrep(n, f), f, f.body, book);
  }

  lemma AckVouched(n: Node, f: Frame, book: Book)
    requires Vouched(n, book) && f.body.Ack?
    ensures Vouched(HandleAck(n, f), book) && HandleAck(n, f).me == n.me
  {
    hide AirOk, BufsOk, InboxesOk;
  }

  lemma DispatchVouched(n: Node, f: Frame, book: Book)
    requires Vouched(n, book) && Says(f, book)
    ensures Vouched(Dispatch(n, f), book) && Dispatch(n, f).me == n.me
  {
    hide Vouched, HandleRreq, HandleRrep, HandleRerr, HandleData, HandleInfo, HandleAck, HandleUreq, HandleUrep, HandleUerr,
         HandleUserMessage, HandleMoveUser;
    match f.body
    case Rrep(_, _) => RrepVouched(n, f, book);
    case Data(_, _) => DataVouched(n, f, book);
    case Ack(_) => AckVouched(n, f, book);
    case Urep(_, _, _) => UrepVouched(n, f, book);
    case UserMsg(_, _, _, _) => UserMessageVouched(n, f, book);
    case MoveUser(_, _) => MoveVouched(n, f, book);
    case _ => PlainVouched(n, f, book);
  }

  lemma HearVouched(n: Node, f: Frame, book: Book)
    requires Vouched(n, book) && Says(f, book)
    ensures Vouched(HandlePacket(n, f), book) && HandlePacket(n, f).me == n.me
  {
    var m := n.(seen := n.seen + {f.id});
    assert Vouched(m, book) && Vouched(n.(acks := n.acks - {f.id}), book);
    hide Vouched, Dispatch;
    if Accepts(n, f) {
      DispatchVouched(m, f, book);
    }
  }

  // ---------- calls and timers ----------

  lemma {:induction false} TransmitAllVouched(n: Node, hdr: Frame, bs: seq<Body>, book: Book)
    requires Vouched(n, book) && forall i | 0 <= i < |bs| :: bs[i].Info?
    ensures Vouched(TransmitAll(n, hdr, bs), book) && TransmitAll(n, hdr, bs).me == n.me
    decreases |bs|
  {
    hide Vouched, Transmit;
    if bs != [] {
      TransmitVouched(n, hdr.(body := bs[0]), book);
      TransmitAllVouched(Transmit(n, hdr.(body := bs[0])), hdr, bs[1..], book);
    }
  }

  lemma BeaconVouched(n: Node, book: Book)
    requires Vouched(n, book)
    ensures Vouched(SendBroadcastInfo(n), book) && SendBroadcastInfo(n).me == n.me
  {
    var added, removed := Ordered.Ascending(n.users.added), Ordered.Ascending(n.users.removed);
    ChunksAreInfo(added, removed);
    DrewVouched(n, book);
    var m := Drew(n).(users := ClearDiff(n.users));
    TableVouched(Drew(n), ClearDiff(n.users), book);
    hide Vouched, Transmit, TransmitAll, Chunks;
    TransmitVouched(m, InfoHeader(n), book);
    TransmitAllVouched(m, InfoHeader(n), Chunks(added, removed), book);
  }

  /** What a call asks for. */
  function Asked(q: U32, call: ApiCall): Book {
    match call
    case CallData(dest, data, _, _) => {NodeText(q, dest, data)}
    case CallUserMsg(sender, to, message, _, _) => {UserText(sender, to, message)}
    case _ => {}
  }

  lemma ApiVouched(n: Node, call: ApiCall, book: Book)
    requires Vouched(n, book) && Asked(n.me, call) <= book
    ensures Vouched(Api(n, call), book) && Api(n, call).me == n.me
  {
    hide Vouched, SendData, SendUserMessage, SendMoveUserReq, SendBroadcastInfo;
    match call
    case CallData(dest, data, id, flags) =>
      assert NodeText(n.me, dest, data) in Asked(n.me, call);
      SendDataVouched(n, dest, data, id, flags, book);
      SendDataMe(n, dest, data, id, flags);
    case CallUserMsg(sender, to, message, id, flags) =>
      assert UserText(sender, to, message) in Asked(n.me, call);
      SendUserVouched(n, sender, to, message, id, flags, book);
    case CallMove(user, oldNode) => SendMoveVouched(n, user, oldNode, book);
    case CallBeacon => BeaconVouched(n, book);
    case _ => SessionVouched(n, call, book);
  }

  lemma SendDataMe(n: Node, dest: U32, data: seq<U8>, packetId: U32, flags: U8)
    ensures SendData(n, dest, data, packetId, flags).me == n.me
  {
  }

  lemma SessionVouched(n: Node, call: ApiCall, book: Book)
    requires Vouched(n, book)
    requires call.CallLogin? || call.CallLogout? || call.CallDisconnect? || call.CallPopInbox?
    ensures Vouched(Api(n, call), book) && Api(n, call).me == n.me
  {
    TableVouched(n, Api(n, call).users, book);
    hide AirOk, NotesOk, AcksOk, BufsOk;
  }

  lemma {:induction false} SweepVouched(n: Node, ids: seq<U32>, book: Book)
    requires Vouched(n, book)
    ensures Vouched(Sweep(n, ids).node, book) && Sweep(n, ids).node.me == n.me
    decreases |ids|
  {
    hide BufsOk, InboxesOk, NotesOk;
    if ids != [] {
      SweepVouched(n, ids[..|ids| - 1], book);
    }
  }

  lemma {:induction false} ReportAllVouched(n: Node, es: seq<(U32, AckEntry)>, garbled: U32 -> U32, book: Book)
    requires Vouched(n, book)
    ensures Vouched(ReportAll(n, es, garbled), book) && ReportAll(n, es, garbled).me == n.me
    decreases |es|
  {
    hide Vouched, Originate;
    if es != [] {
      var e := es[|es| - 1];
      var m := ReportAll(n, es[..|es| - 1], garbled);
      ReportAllVouched(n, es[..|es| - 1], garbled, book);
      OriginateVouched(m, e.1.frame.origin, e.1.frame.origin, Rerr(m.me, m.me, garbled(e.0), e.0), book);
      TellVouched(SendRerr(m, m.me, e.1.frame.origin, garbled(e.0), e.0), BleAckFailure(e.0), book);
    }
  }

  lemma TimerVouched(n: Node, garbled: U32 -> U32, book: Book)
    requires Vouched(n, book)
    ensures Vouched(CleanupAcks(n, garbled), book)
  {
    hide Vouched, Sweep, ReportAll;
    SweepVouched(n, Ordered.Ascending(n.acks.Keys), book);
    var s := Sweep(n, Ordered.Ascending(n.acks.Keys));
    ReportAllVouched(s.node, s.expired, garbled, book);
  }

  // ---------- whole runs ----------

  /** Everything the calls of a run have asked for so far. */
  function Entries(ls: seq<Label>): Book
    decreases |ls|
  {
    if ls == [] then {}
    else
      var l := ls[|ls| - 1];
      Entries(ls[..|ls| - 1]) + if l.Invoke? then Asked(l.q, l.call) else {}
  }

  ghost predicate Authentic(t: Topology, s: Net, book: Book) {
    && Placed(t, s)
    && (forall q | q in s.nodes :: Vouched(s.nodes[q], book))
    && (forall i | 0 <= i < |s.flying| :: Says(s.flying[i].frame, book))
  }

  lemma VouchedMore(n: Node, book: Book, more: Book)
    requires Vouched(n, book) && book <= more
    ensures Vouched(n, more)
  {
    forall i | 0 <= i < |n.io.notes| ensures NoteOk(n.me, n.io.notes[i], more) {
      assert NoteOk(n.me, n.io.notes[i], book);
    }
    hide NoteOk;
  }

  lemma AuthenticMore(t: Topology, s: Net, book: Book, more: Book)
    requires Authentic(t, s, book) && book <= more
    ensures Authentic(t, s, more)
  {
    forall q | q in s.nodes ensures Vouched(s.nodes[q], more) {
      VouchedMore(s.nodes[q], book, more);
    }
    hide Vouched;
  }

  lemma AwakeVouched(n: Node, env: Env, book: Book)
    requires Vouched(n, book)
    ensures Vouched(Awake(n, env), book)
  {
    hide AirOk, NotesOk, AcksOk, BufsOk, InboxesOk;
  }

  lemma ResultVouched(t: Topology, s: Net, l: Label, book: Book)
    requires Authentic(t, s, book) && Enabled(s, l) && Acts(l)
    requires l.Invoke? ==> Asked(l.q, l.call) <= book
    ensures Vouched(Result(s, l), book)
  {
    hide Vouched, Says, HandlePacket, Api, CleanupAcks;
    var n := Before(s, l);
    AwakeVouched(s.nodes[Actor(s, l)], l.env, book);
    match l
    case Deliver(i, _) => HearVouched(n, s.flying[i].frame, book);
    case Invoke(_, call, _) => ApiVouched(n, call, book);
    case AckTimer(_, _, garbled) => TimerVouched(n, garbled, book);
  }

  lemma AiredSays(n: Node, n': Node, f: Frame, book: Book)
    requires Vouched(n', book) && JustAired(n, n', f)
    ensures Says(f, book)
  {
  }

  lemma StepAuthentic(t: Topology, s: Net, l: Label, book: Book)
    requires Valid(t) && Authentic(t, s, book) && Enabled(s, l)
    requires l.Invoke? ==> Asked(l.q, l.call) <= book
    ensures Authentic(t, Step(t, s, l), book)
  {
    hide Vouched, Says, Result, Own, Behaves, JustAired;
    StepPlaced(t, s, l);
    var s' := Step(t, s, l);
    if Acts(l) {
      StepShape(t, s, l);
      ResultVouched(t, s, l, book);
    }
    forall j | 0 <= j < |s'.flying| ensures Says(s'.flying[j].frame, book) {
      StepFlying(t, s, l, j);
      if s'.flying[j] !in s.flying {
        AiredSays(Before(s, l), Result(s, l), s'.flying[j].frame, book);
      }
    }
  }

  lemma {:induction false} HistoryAuthentic(t: Topology, ss: seq<Net>, ls: seq<Label>, i: nat)
    requires Valid(t) && IsHistory(t, ss, ls) && i < |ss| && |ss| == |ls| + 1
    ensures Authentic(t, ss[i], Entries(ls[..i]))
  {
    hide Step, Enabled, IsHistory, Entries;
    var env := HistoryStart(t, ss, ls);
    if i == 0 {
      FreshAuthentic(t, env, Entries([]));
      assert ls[..0] == [];
    } else {
      HistoryAuthentic(t, ss, ls, i - 1);
      HistoryStep(t, ss, ls, i - 1);
      EntriesGrow(ls, i);
      AuthenticMore(t, ss[i - 1], Entries(ls[..i - 1]), Entries(ls[..i]));
      StepAuthentic(t, ss[i - 1], ls[i - 1], Entries(ls[..i]));
    }
  }

  lemma EntriesGrow(ls: seq<Label>, i: nat)
    requires 1 <= i <= |ls|
    ensures Entries(ls[..i - 1]) <= Entries(ls[..i])
    ensures ls[i - 1].Invoke? ==> Asked(ls[i - 1].q, ls[i - 1].call) <= Entries(ls[..i])
  {
    assert ls[..i][..i - 1] == ls[..i - 1];
  }

  lemma FreshAuthentic(t: Topology, env: Env, book: Book)
    ensures Authentic(t, Start(t, env), book)
  {
  }

  /** A call made before step i asked for this text. */
  ghost predicate AskedBefore(ls: seq<Label>, i: nat, x: Text) {
    exists j :: 0 <= j < i && j < |ls| && ls[j].Invoke? && x in Asked(ls[j].q, ls[j].call)
  }

  lemma {:induction false} EntriesWereAsked(ls: seq<Label>, i: nat, x: Text)
    requires i <= |ls| && x in Entries(ls[..i])
    ensures AskedBefore(ls, i, x)
  {
    if i > 0 {
      assert ls[..i][..i - 1] == ls[..i - 1];
      if x in Entries(ls[..i - 1]) {
        EntriesWereAsked(ls, i - 1, x);
      }
    }
  }

  /** Integrity: in every run, a user message shown to a phone or given to the uplink was asked for by an
      earlier call, somewhere, with the same sender, recipient and text. */
  lemma UserMessagesAreGenuine(t: Topology, ss: seq<Net>, ls: seq<Label>, i: nat, q: U32, k: nat)
    requires Valid(t) && IsHistory(t, ss, ls) && i < |ss| && |ss| == |ls| + 1
    requires q in ss[i].nodes && k < |ss[i].nodes[q].io.notes|
    ensures var note := ss[i].nodes[q].io.notes[k];
            && (note.BleUser? ==> AskedBefore(ls, i, UserText(note.sender, note.to, note.data)))
            && (note.Uplink? ==> AskedBefore(ls, i, UserText(note.sender, note.to, note.data)))
            && (note.BleNode? ==> AskedBefore(ls, i, NodeText(note.origin, q, note.data)))
            && (note.BleBroadcast? ==> exists origin: U32 :: AskedBefore(ls, i, NodeText(origin, BROADCAST_ADDR, note.data)))
  {
    hide IsHistory, Entries, AskedBefore, AirOk, AcksOk, BufsOk, InboxesOk, Says;
    HistoryAuthentic(t, ss, ls, i);
    var n, book := ss[i].nodes[q], Entries(ls[..i]);
    assert Own(n, q) && NoteOk(n.me, n.io.notes[k], book);
    match n.io.notes[k]
    case BleUser(_, to, sender, data, _) => EntriesWereAsked(ls, i, UserText(sender, to, data));
    case Uplink(sender, to, data) => EntriesWereAsked(ls, i, UserText(sender, to, data));
    case BleNode(origin, data, _) => EntriesWereAsked(ls, i, NodeText(origin, q, data));
    case BleBroadcast(data, _) =>
      var origin: U32 :| NodeText(origin, BROADCAST_ADDR, data) in book;
      EntriesWereAsked(ls, i, NodeText(origin, BROADCAST_ADDR, data));
    case _ =>
  }

  /** The same for every message kept in an inbox, which is the inbox of the user it is for. */
  lemma InboxesAreGenuine(t: Topology, ss: seq<Net>, ls: seq<Label>, i: nat, q: U32, u: U32, k: nat)
    requires Valid(t) && IsHistory(t, ss, ls) && i < |ss| && |ss| == |ls| + 1
    requires q in ss[i].nodes && u in ss[i].nodes[q].users.users && k < |ss[i].nodes[q].users.users[u].inbox|
    ensures var m := ss[i].nodes[q].users.users[u].inbox[k];
            m.to == u && AskedBefore(ls, i, UserText(m.sender, u, m.data))
  {
    hide IsHistory, Entries, AskedBefore, AirOk, AcksOk, BufsOk, NotesOk, Says;
    HistoryAuthentic(t, ss, ls, i);
    var box := ss[i].nodes[q].users.users[u].inbox;
    assert InboxOk(box, Entries(ls[..i])) && AddressedTo(u, box);
    EntriesWereAsked(ls, i, UserText(box[k].sender, u, box[k].data));
  }
}
