/** Data for a node and move requests are neither lost nor duplicated inside a
    node: what it took in is what waits for a route and what it handed over. */
module Parcels {
  import opened Packets
  import opened Sessions
  import opened Nodes
  import opened Effects
  import opened Network
  import opened Mail
  import opened Conservation
  import opened HandlerOutcomes
  import opened CallOutcomes
  import opened RouteArrival
  import opened Ordered
  import Diffs

  /** Data under its packet ID for one node, or a request to move a user away from its old home. */
  datatype Parcel = Text(id: U32, dest: U32, data: seq<U8>) | Move(user: U32, home: U32)

  // ---------- where parcels are ----------

  function Texts(d: U32, ps: seq<PendingData>): seq<Parcel> {
    seq(|ps|, i requires 0 <= i < |ps| => Text(ps[i].id, d, ps[i].data))
  }

  function Moves(rs: seq<MoveReq>): seq<Parcel> {
    seq(|rs|, i requires 0 <= i < |rs| => Move(rs[i].user, rs[i].oldNode))
  }

  ghost function AllTexts(m: map<U32, seq<PendingData>>): map<U32, seq<Parcel>> {
    map d | d in m :: Texts(d, m[d])
  }

  ghost function AllMoves(m: map<U32, seq<MoveReq>>): map<U32, seq<Parcel>> {
    map d | d in m :: Moves(m[d])
  }

  /** The parcel in a frame that node `me` started. */
  function InFrame(me: U32, f: Frame): multiset<Parcel> {
    if f.origin != me || f.hops != 0 then multiset{}
    else if f.body.Data? && f.body.finalDest != BROADCAST_ADDR then multiset{Text(f.id, f.body.finalDest, f.body.data)}
    else if f.body.MoveUser? then multiset{Move(f.body.user, f.body.oldNode)}
    else multiset{}
  }

  function InFrames(me: U32, fs: seq<Frame>): multiset<Parcel>
    decreases |fs|
  {
    if fs == [] then multiset{} else InFrames(me, fs[..|fs| - 1]) + InFrame(me, fs[|fs| - 1])
  }

  /** Every parcel the node is answerable for: waiting for a route, or handed over. */
  ghost function Stock(n: Node): multiset<Parcel> {
    Bag(AllTexts(n.bufs.dataBuf)) + Bag(AllMoves(n.bufs.moveBuf)) + InFrames(n.me, n.io.handed)
  }

  /** Waiting data has packet IDs and is for one node, and move requests wait under the node they are for. */
  ghost predicate InOrder(n: Node) {
    MovesKeyed(n.bufs) && BROADCAST_ADDR !in n.bufs.dataBuf
    && forall d, i | d in n.bufs.dataBuf && 0 <= i < |n.bufs.dataBuf[d]| :: n.bufs.dataBuf[d][i].id != 0
  }

  lemma InOne(me: U32, f: Frame)
    ensures InFrames(me, [f]) == InFrame(me, f)
  {
    assert [f][..0] == [];
  }

  lemma {:induction false} InAppend(me: U32, a: seq<Frame>, b: seq<Frame>)
    ensures InFrames(me, a + b) == InFrames(me, a) + InFrames(me, b)
    decreases |b|
  {
    hide InFrame;
    if b == [] {
      assert a + b == a;
    } else {
      var k := |b| - 1;
      InAppend(me, a, b[..k]);
      assert (a + b)[..|a + b| - 1] == a + b[..k];
    }
  }

  lemma {:induction false} InNone(me: U32, fs: seq<Frame>)
    requires forall i | 0 <= i < |fs| :: InFrame(me, fs[i]) == multiset{}
    ensures InFrames(me, fs) == multiset{}
    decreases |fs|
  {
    if fs != [] {
      InNone(me, fs[..|fs| - 1]);
    }
  }

  // ---------- joining and leaving the buffers ----------

  lemma TextJoins(m: map<U32, seq<PendingData>>, m': map<U32, seq<PendingData>>, d: U32, x: PendingData)
    requires Joins(m, m', d, x)
    ensures Bag(AllTexts(m')) == Bag(AllTexts(m)) + multiset{Text(x.id, d, x.data)}
  {
    var y, a := Text(x.id, d, x.data), AllTexts(m);
    assert Texts(d, At(m, d) + [x]) == At(a, d) + [y];
    forall k | k in m && k != d ensures k in m' && m'[k] == m[k] {
      assert k in m - {d} && (m - {d})[k] == m[k];
    }
    forall k | k in m' && k != d ensures k in m {
      assert k in m' - {d};
    }
    assert AllTexts(m') == a[d := At(a, d) + [y]];
    BagPush(a, d, y);
    hide Bag;
  }

  lemma MoveJoins(m: map<U32, seq<MoveReq>>, m': map<U32, seq<MoveReq>>, d: U32, x: MoveReq)
    requires Joins(m, m', d, x)
    ensures Bag(AllMoves(m')) == Bag(AllMoves(m)) + multiset{Move(x.user, x.oldNode)}
  {
    var y, a := Move(x.user, x.oldNode), AllMoves(m);
    assert Moves(At(m, d) + [x]) == At(a, d) + [y];
    forall k | k in m && k != d ensures k in m' && m'[k] == m[k] {
      assert k in m - {d} && (m - {d})[k] == m[k];
    }
    forall k | k in m' && k != d ensures k in m {
      assert k in m' - {d};
    }
    assert AllMoves(m') == a[d := At(a, d) + [y]];
    BagPush(a, d, y);
    hide Bag;
  }

  lemma TextsLeave(m: map<U32, seq<PendingData>>, d: U32)
    ensures Bag(AllTexts(m)) == Bag(AllTexts(m - {d})) + multiset(Texts(d, At(m, d)))
  {
    BagDrop(AllTexts(m), d);
    assert AllTexts(m - {d}) == AllTexts(m) - {d};
    assert At(AllTexts(m), d) == Texts(d, At(m, d));
    hide Bag;
  }

  lemma MovesLeave(m: map<U32, seq<MoveReq>>, d: U32)
    ensures Bag(AllMoves(m)) == Bag(AllMoves(m - {d})) + multiset(Moves(At(m, d)))
  {
    BagDrop(AllMoves(m), d);
    assert AllMoves(m - {d}) == AllMoves(m) - {d};
    assert At(AllMoves(m), d) == Moves(At(m, d));
    hide Bag;
  }

  lemma MultisetSnoc<T>(s: seq<T>, x: T)
    ensures multiset(s + [x]) == multiset(s) + multiset{x}
  {
  }

  lemma InSnoc(me: U32, fs: seq<Frame>, f: Frame)
    ensures InFrames(me, fs + [f]) == InFrames(me, fs) + InFrame(me, f)
  {
    hide InFrame;
    assert (fs + [f])[..|fs|] == fs;
  }

  lemma TextsSnoc(t: U32, ps: seq<PendingData>, x: PendingData)
    ensures multiset(Texts(t, ps + [x])) == multiset(Texts(t, ps)) + multiset{Text(x.id, t, x.data)}
  {
    assert Texts(t, ps + [x]) == Texts(t, ps) + [Text(x.id, t, x.data)];
    MultisetSnoc(Texts(t, ps), Text(x.id, t, x.data));
  }

  lemma DataOutSnoc(n: Node, t: U32, ps: seq<PendingData>, x: PendingData)
    requires t in n.routes && x.id != 0
    ensures DataOut(n, t, ps + [x])
         == DataOut(n, t, ps) + [Frame(n.routes[t].nextHop, n.me, n.me, x.id, 0, 0, Data(t, x.data))]
  {
    assert (ps + [x])[..|ps|] == ps;
  }

  lemma {:induction false} DataOutCarries(n: Node, t: U32, ps: seq<PendingData>)
    requires t in n.routes && (t == BROADCAST_ADDR ==> ps == []) && forall i | 0 <= i < |ps| :: ps[i].id != 0
    ensures InFrames(n.me, DataOut(n, t, ps)) == multiset(Texts(t, ps))
    decreases |ps|
  {
    if ps == [] {
      assert DataOut(n, t, ps) == [] && Texts(t, ps) == [];
    } else {
      hide DataOut, InFrames, Texts;
      var front, x := ps[..|ps| - 1], ps[|ps| - 1];
      assert ps == front + [x];
      DataOutCarries(n, t, front);
      DataOutSnoc(n, t, front, x);
      TextsSnoc(t, front, x);
      InSnoc(n.me, DataOut(n, t, front), Frame(n.routes[t].nextHop, n.me, n.me, x.id, 0, 0, Data(t, x.data)));
    }
  }

  lemma MovesSplit(rs: seq<MoveReq>, x: MoveReq)
    ensures multiset(Moves(rs + [x])) == multiset(Moves(rs)) + multiset{Move(x.user, x.oldNode)}
  {
    assert Moves(rs + [x]) == Moves(rs) + [Move(x.user, x.oldNode)];
    MultisetSnoc(Moves(rs), Move(x.user, x.oldNode));
  }

  lemma MovesOutSplit(n: Node, t: U32, rs: seq<MoveReq>, x: MoveReq)
    requires t in n.routes
    ensures MovesOut(n, t, rs + [x]) == MovesOut(n, t, rs) + [Made(n, |rs|, n.routes[t].nextHop, n.me, MoveUser(x.user, t))]
  {
  }

  lemma {:induction false} MovesOutCarry(n: Node, t: U32, rs: seq<MoveReq>)
    requires t in n.routes && forall i | 0 <= i < |rs| :: rs[i].oldNode == t
    ensures InFrames(n.me, MovesOut(n, t, rs)) == multiset(Moves(rs))
    decreases |rs|
  {
    if rs == [] {
      assert MovesOut(n, t, rs) == [] && Moves(rs) == [];
    } else {
      hide MovesOut, InFrames, Moves;
      var front, x := rs[..|rs| - 1], rs[|rs| - 1];
      assert rs == front + [x];
      MovesOutCarry(n, t, front);
      MovesOutSplit(n, t, front, x);
      MovesSplit(front, x);
      InSnoc(n.me, MovesOut(n, t, front), Made(n, |front|, n.routes[t].nextHop, n.me, MoveUser(x.user, t)));
    }
  }

  // ---------- what handlers hand over ----------

  /** The same parcels wait, and these frames were handed over. */
  lemma HandsStock(n: Node, n': Node, fs: seq<Frame>)
    requires n'.me == n.me && n'.bufs.dataBuf == n.bufs.dataBuf && n'.bufs.moveBuf == n.bufs.moveBuf && Hands(n, n', fs)
    ensures Stock(n') == Stock(n) + InFrames(n.me, fs) && (InOrder(n) ==> InOrder(n'))
  {
    InAppend(n.me, n.io.handed, fs);
    hide Bag, InFrames;
  }

  /** No parcel comes or goes. */
  ghost predicate Idle(n: Node, n': Node) {
    && n'.me == n.me && n'.bufs.dataBuf == n.bufs.dataBuf && n'.bufs.moveBuf == n.bufs.moveBuf
    && InFrames(n.me, n'.io.handed) == InFrames(n.me, n.io.handed)
  }

  lemma IdleStock(n: Node, n': Node)
    requires Idle(n, n')
    ensures Stock(n') == Stock(n) && (InOrder(n) ==> InOrder(n'))
  {
    hide Bag, InFrames;
  }

  lemma SendIdle(n: Node, sender: U32, to: U32, message: seq<U8>, id: U32, flags: U8)
    ensures Idle(n, SendUserMessage(n, sender, to, message, id, flags))
  {
    hide SendUserMessage;
    var n' := SendUserMessage(n, sender, to, message, id, flags);
    UserMsgCall(n, sender, to, message, id, flags);
    SendKeepsMe(n, sender, to, message, id, flags);
    var fs := n'.io.handed[|n.io.handed|..];
    assert n'.io.handed == n.io.handed + fs;
    InNone(n.me, fs);
    InAppend(n.me, n.io.handed, fs);
    hide InFrames;
  }

  lemma SendKeepsMe(n: Node, sender: U32, to: U32, message: seq<U8>, id: U32, flags: U8)
    ensures SendUserMessage(n, sender, to, message, id, flags).me == n.me
  {
    hide Oversize, AsksAck;
  }

  lemma {:induction false} UserItemsIdle(n: Node, ms: seq<PendingUser>)
    ensures Idle(n, FlushUserItems(n, ms))
    decreases |ms|
  {
    hide SendUserMessage, InFrames;
    if ms != [] {
      var m := ms[|ms| - 1];
      UserItemsIdle(n, ms[..|ms| - 1]);
      SendIdle(FlushUserItems(n, ms[..|ms| - 1]), m.sender, m.destUser, m.message, m.id, 0);
    }
  }

  lemma {:induction false} MsgItemsIdle(n: Node, u: U32, ms: seq<PendingMsg>)
    ensures Idle(n, FlushMsgItems(n, u, ms))
    decreases |ms|
  {
    hide SendUserMessage, InFrames;
    if ms != [] {
      var m := ms[|ms| - 1];
      MsgItemsIdle(n, u, ms[..|ms| - 1]);
      SendIdle(FlushMsgItems(n, u, ms[..|ms| - 1]), m.sender, u, m.message, m.id, 0);
    }
  }

  lemma {:induction false} InboxIdle(n: Node, ms: seq<OfflineMsg>)
    ensures Idle(n, ForwardInbox(n, ms))
    decreases |ms|
  {
    hide SendUserMessage, InFrames;
    if ms != [] {
      var m := ms[|ms| - 1];
      InboxIdle(n, ms[..|ms| - 1]);
      SendIdle(ForwardInbox(n, ms[..|ms| - 1]), m.sender, m.to, m.data, m.id, if m.kind == EncryptedMsg then ENC_MSG else 0);
    }
  }

  lemma BackwardIdle(n: Node, f: Frame, body: Body)
    requires !body.Data? && !body.MoveUser?
    ensures Idle(n, Backward(n, f, body))
  {
    hide Backward, InFrames;
    BackwardSends(n, f, body);
    var fs := Homeward(n, n.routes, f, body);
    assert InFrames(n.me, fs) == multiset{} by {
      InNone(n.me, fs);
    }
    InAppend(n.me, n.io.handed, fs);
  }

  /** When a route appears, what waited for it moves from the buffers to the frames. */
  lemma FlushesStock(n: Node, t: U32)
    requires InOrder(n) && t in n.routes
    ensures var g := Flush(n, t); Stock(g) == Stock(n) && InOrder(g) && g.me == n.me
  {
    hide FlushData, FlushMove, FlushUserItems, Stock;
    var d := FlushData(n, t);
    DataFlushStock(n, t);
    MovesFlushStock(d, t);
    var e := FlushMove(d, t);
    var e1 := e.(bufs := e.bufs.(routeBuf := e.bufs.routeBuf - {t}));
    UserItemsIdle(e1, At(e.bufs.routeBuf, t));
    IdleStock(e1, FlushUserItems(e1, At(e.bufs.routeBuf, t)));
    RouteBufApart(e, e1);
  }

  lemma RouteBufApart(n: Node, n1: Node)
    requires n1.me == n.me && n1.bufs.dataBuf == n.bufs.dataBuf && n1.bufs.moveBuf == n.bufs.moveBuf && n1.io.handed == n.io.handed
    ensures Stock(n1) == Stock(n) && (InOrder(n) ==> InOrder(n1))
  {
    hide Bag, InFrames;
  }

  lemma DataFlushStock(n: Node, t: U32)
    requires InOrder(n) && t in n.routes
    ensures var d := FlushData(n, t); Stock(d) == Stock(n) && InOrder(d) && d.me == n.me && d.routes == n.routes
  {
    hide FlushData, Bag, InFrames, DataOut, Texts;
    var ps := At(n.bufs.dataBuf, t);
    DataFlushed(n, t);
    DataOutCarries(n, t, ps);
    TextsLeave(n.bufs.dataBuf, t);
    InAppend(n.me, n.io.handed, DataOut(n, t, ps));
  }

  lemma MovesFlushStock(n: Node, t: U32)
    requires InOrder(n) && t in n.routes
    ensures var e := FlushMove(n, t); Stock(e) == Stock(n) && InOrder(e) && e.me == n.me && e.routes == n.routes
  {
    hide FlushMove, Bag, InFrames, MovesOut, Moves;
    var rs := At(n.bufs.moveBuf, t);
    MovesFlushed(n, t);
    MovesOutCarry(n, t, rs);
    MovesLeave(n.bufs.moveBuf, t);
    InAppend(n.me, n.io.handed, MovesOut(n, t, rs));
  }

  // ---------- one activation ----------

  /** The node's own parcel come back with its counter at 255: passed on, it looks like one just started. */
  ghost function Echoed(n: Node, f: Frame): multiset<Parcel> {
    if !Accepts(n, f) || f.origin != n.me || f.hops != 255 then multiset{}
    else if f.body.Data? && f.body.finalDest != n.me && f.body.finalDest != BROADCAST_ADDR && f.body.finalDest in n.routes then
      multiset{Text(f.id, f.body.finalDest, f.body.data)}
    else if f.body.MoveUser? && f.body.oldNode != n.me && f.body.oldNode in HandlePacket(n, f).routes then
      multiset{Move(f.body.user, f.body.oldNode)}
    else multiset{}
  }

  /** The parcels the node takes responsibility for in one activation. */
  ghost function TakesIn(n0: Node, e: Event): multiset<Parcel> {
    var n := Awake(n0, e.env);
    match e
    case Hear(f, _) => Echoed(n, f)
    case Ask(call, _) =>
      if call.CallData? && call.dest != BROADCAST_ADDR then multiset{Text(IdFor(n, call.id).0, call.dest, call.data)}
      else if call.CallMove? then multiset{Move(call.user, call.oldNode)}
      else multiset{}
    case Tick(_, _) => multiset{}
  }

  ghost predicate StockGains(n: Node, n': Node, gain: multiset<Parcel>) {
    Stock(n') == Stock(n) + gain && InOrder(n') && n'.me == n.me
  }

  lemma HandlerKeepsMe(n: Node, f: Frame)
    ensures HandlePacket(n, f).me == n.me
  {
    GateIff(n, f);
    hide HandlePacket;
  }

  lemma UnhandledStock(n: Node, f: Frame)
    requires InOrder(n) && !Accepts(n, f)
    ensures StockGains(n, HandlePacket(n, f), multiset{})
  {
    GateIff(n, f);
    hide HandlePacket, Accepts, Bag, InFrames;
    RouteBufApart(n, HandlePacket(n, f));
  }

  /** Acknowledgements carry no parcel; the frame after them may. */
  lemma AfterReceipt(n: Node, f: Frame, asked: bool, fs: seq<Frame>)
    requires |fs| <= 1
    ensures InFrames(n.me, Receipt(n, f, asked) + fs) == if |fs| == 1 then InFrame(n.me, fs[0]) else multiset{}
  {
    var acks := Receipt(n, f, asked);
    InNone(n.me, acks);
    InAppend(n.me, acks, fs);
    if |fs| == 1 {
      assert fs == [fs[0]];
      InOne(n.me, fs[0]);
    }
    hide InFrame;
  }

  lemma DataStock(n: Node, f: Frame)
    requires InOrder(n) && Accepts(n, f) && f.body.Data?
    ensures StockGains(n, HandlePacket(n, f), Echoed(n, f))
  {
    hide HandlePacket, Accepts, Stock, InFrames, Receipt, InOrder;
    DataOutcome(n, f);
    HandlerKeepsMe(n, f);
    var n', t, asked := HandlePacket(n, f), f.body.finalDest, f.flags == 0x04;
    var fs := if t == n.me then []
              else if t == BROADCAST_ADDR then [PassedOn(n, f, t)]
              else if t in n.routes then [PassedOn(n, f, n.routes[t].nextHop)]
              else [Made(n, |Receipt(n, f, asked)|, f.origin, f.origin, Rerr(n.me, n.me, t, f.id))];
    assert Receipt(n, f, asked) + [] == Receipt(n, f, asked);
    HandsStock(n, n', Receipt(n, f, asked) + fs);
    AfterReceipt(n, f, asked, fs);
  }

  /** Neither a buffer of parcels nor a frame with one is touched. */
  lemma PlainStock(n: Node, n': Node, fs: seq<Frame>)
    requires n'.me == n.me && n'.bufs.dataBuf == n.bufs.dataBuf && n'.bufs.moveBuf == n.bufs.moveBuf && Hands(n, n', fs)
    requires forall i | 0 <= i < |fs| :: InFrame(n.me, fs[i]) == multiset{}
    requires InOrder(n)
    ensures StockGains(n, n', multiset{})
  {
    hide Stock, InFrames;
    HandsStock(n, n', fs);
    InNone(n.me, fs);
  }

  lemma UserMsgStock(n: Node, f: Frame)
    requires InOrder(n) && Accepts(n, f) && f.body.UserMsg?
    ensures StockGains(n, HandlePacket(n, f), multiset{})
  {
    hide HandlePacket, Accepts, StockGains, Kept;
    UserMsgOutcome(n, f);
    HandlerKeepsMe(n, f);
    var n' := HandlePacket(n, f);
    var fs := n'.io.handed[|n.io.handed|..];
    assert n'.io.handed == n.io.handed + fs;
    PlainStock(n, n', fs);
  }

  lemma RelayStock(n: Node, f: Frame)
    requires InOrder(n) && Accepts(n, f)
    requires f.body.Rreq? || f.body.Ureq? || f.body.Rerr? || f.body.Uerr? || f.body.Info? || f.body.Ack? || (f.body.Urep? && f.origin != n.me)
    ensures StockGains(n, HandlePacket(n, f), multiset{})
  {
    hide HandlePacket, Accepts, StockGains;
    match f.body {
      case Rreq(_) => RreqOutcome(n, f);
      case Ureq(_) => UreqOutcome(n, f);
      case Rerr(_, _, _, _) => RerrOutcome(n, f);
      case Uerr(_, _, _) => UerrOutcome(n, f);
      case Info(_, _, _) => InfoOutcome(n, f);
      case Ack(_) => AckOutcome(n, f);
      case Urep(_, _, _) => UrepOutcome(n, f);
    }
    HandlerKeepsMe(n, f);
    var n' := HandlePacket(n, f);
    var fs := n'.io.handed[|n.io.handed|..];
    assert n'.io.handed == n.io.handed + fs;
    PlainStock(n, n', fs);
  }

  lemma MoveStock(n: Node, f: Frame)
    requires InOrder(n) && Accepts(n, f) && f.body.MoveUser? && f.body.oldNode != n.me
    ensures StockGains(n, HandlePacket(n, f), Echoed(n, f))
  {
    hide HandlePacket, Accepts, Stock, InFrames;
    MoveOutcome(n, f);
    HandlerKeepsMe(n, f);
    var n' := HandlePacket(n, f);
    var fs := n'.io.handed[|n.io.handed|..];
    assert n'.io.handed == n.io.handed + fs;
    HandsStock(n, n', fs);
    if f.body.oldNode in n'.routes {
      InOne(n.me, fs[0]);
      assert fs == [fs[0]];
    } else {
      InNone(n.me, fs);
    }
  }

  /** User messages that leave are not parcels. */
  lemma HomeStock(n: Node, f: Frame)
    requires InOrder(n) && Accepts(n, f) && ((f.body.Urep? && f.origin == n.me) || (f.body.MoveUser? && f.body.oldNode == n.me))
    ensures StockGains(n, HandlePacket(n, f), multiset{})
  {
    hide HandlePacket, Accepts, Stock, FlushMsgItems, ForwardInbox, Updated, InOrder;
    HandledBy(n, f);
    var m := n.(seen := n.seen + {f.id});
    if f.body.Urep? {
      var a, u := LearnUrep(m, f), f.body.user;
      var a1 := a.(bufs := a.bufs.(msgBuf := a.bufs.msgBuf - {u}));
      RouteBufApart(n, a1);
      MsgItemsIdle(a1, u, At(a.bufs.msgBuf, u));
      IdleStock(a1, FlushMsgItems(a1, u, At(a.bufs.msgBuf, u)));
    } else {
      var a, u := LearnMove(m, f), f.body.user;
      var a1 := a.(users := PopInbox(a.users, u));
      RouteBufApart(n, a1);
      InboxIdle(a1, Inbox(a.users, u));
      var b := ForwardInbox(a1, Inbox(a.users, u));
      IdleStock(a1, b);
      RouteBufApart(b, b.(users := Remove(b.users, u)));
    }
  }

  lemma ReplyStock(n: Node, f: Frame)
    requires InOrder(n) && Accepts(n, f) && f.body.Rrep?
    ensures StockGains(n, HandlePacket(n, f), multiset{})
  {
    hide HandlePacket, Accepts, Stock, Flush, LearnRrep, Backward, InOrder;
    HandledBy(n, f);
    var m := n.(seen := n.seen + {f.id});
    ReplyLearned(m, f);
    var a := LearnRrep(m, f);
    RouteBufApart(n, a);
    FlushesStock(a, f.body.target);
    var g, body := Flush(a, f.body.target), Rrep(f.body.target, Inc8(f.body.numHops));
    BackwardIdle(g, f, body);
    IdleStock(g, Backward(g, f, body));
  }

  lemma HearStock(n: Node, f: Frame)
    requires InOrder(n)
    ensures StockGains(n, HandlePacket(n, f), Echoed(n, f))
  {
    hide HandlePacket, Accepts, StockGains, InOrder;
    if !Accepts(n, f) {
      UnhandledStock(n, f);
    } else {
      match f.body
      case Data(_, _) => DataStock(n, f);
      case UserMsg(_, _, _, _) => UserMsgStock(n, f);
      case Rrep(_, _) => ReplyStock(n, f);
      case MoveUser(_, home) => if home == n.me { HomeStock(n, f); } else { MoveStock(n, f); }
      case Urep(_, _, _) => if f.origin == n.me { HomeStock(n, f); } else { RelayStock(n, f); }
      case _ => RelayStock(n, f);
    }
  }

  // ---------- calls and the timer ----------

  lemma CallKeepsMe(n: Node, call: ApiCall)
    ensures Api(n, call).me == n.me
  {
    ApiBehaves(n, call);
    hide Api, Just;
  }

  lemma DataCallStock(n: Node, call: ApiCall)
    requires InOrder(n) && RandomSet(n.io.env) && call.CallData?
    ensures StockGains(n, Api(n, call),
                       if call.dest == BROADCAST_ADDR then multiset{} else multiset{Text(IdFor(n, call.id).0, call.dest, call.data)})
  {
    hide Api, Bag, InFrames;
    DataCall(n, call.dest, call.data, call.id, call.flags);
    CallKeepsMe(n, call);
    var n' := Api(n, call);
    var f := n'.io.handed[|n.io.handed|];
    assert n'.io.handed == n.io.handed + [f];
    InSnoc(n.me, n.io.handed, f);
    if call.dest != BROADCAST_ADDR && call.dest !in n.routes {
      TextJoins(n.bufs.dataBuf, n'.bufs.dataBuf, call.dest, PendingData(IdFor(n, call.id).0, call.data));
      DataJoinsInOrder(n, n', call.dest, PendingData(IdFor(n, call.id).0, call.data));
    }
  }

  lemma DataJoinsInOrder(n: Node, n': Node, d: U32, x: PendingData)
    requires InOrder(n) && d != BROADCAST_ADDR && x.id != 0
    requires n'.bufs.moveBuf == n.bufs.moveBuf && Joins(n.bufs.dataBuf, n'.bufs.dataBuf, d, x)
    ensures InOrder(n')
  {
    forall k, i | k in n'.bufs.dataBuf && 0 <= i < |n'.bufs.dataBuf[k]| ensures n'.bufs.dataBuf[k][i].id != 0 {
      if k != d {
        assert k in n'.bufs.dataBuf - {d} && (n'.bufs.dataBuf - {d})[k] == n'.bufs.dataBuf[k];
      }
    }
    assert BROADCAST_ADDR in n'.bufs.dataBuf ==> BROADCAST_ADDR in n'.bufs.dataBuf - {d};
  }

  lemma MoveCallStock(n: Node, call: ApiCall)
    requires InOrder(n) && call.CallMove?
    ensures StockGains(n, Api(n, call), multiset{Move(call.user, call.oldNode)})
  {
    hide Api, Bag, InFrames;
    MoveCall(n, call.user, call.oldNode);
    CallKeepsMe(n, call);
    var n' := Api(n, call);
    var f := n'.io.handed[|n.io.handed|];
    assert n'.io.handed == n.io.handed + [f];
    InSnoc(n.me, n.io.handed, f);
    if call.oldNode !in n.routes {
      MoveJoins(n.bufs.moveBuf, n'.bufs.moveBuf, call.oldNode, MoveReq(call.user, call.oldNode));
      MoveJoinsInOrder(n, n', call.oldNode, MoveReq(call.user, call.oldNode));
    }
  }

  lemma MoveJoinsInOrder(n: Node, n': Node, d: U32, x: MoveReq)
    requires InOrder(n) && x.oldNode == d
    requires n'.bufs.dataBuf == n.bufs.dataBuf && Joins(n.bufs.moveBuf, n'.bufs.moveBuf, d, x)
    ensures InOrder(n')
  {
    forall k, i | k in n'.bufs.moveBuf && 0 <= i < |n'.bufs.moveBuf[k]| ensures n'.bufs.moveBuf[k][i].oldNode == k {
      if k != d {
        assert k in n'.bufs.moveBuf - {d} && (n'.bufs.moveBuf - {d})[k] == n'.bufs.moveBuf[k];
      }
    }
  }

  lemma OtherCallStock(n: Node, call: ApiCall)
    requires InOrder(n) && !call.CallData? && !call.CallMove?
    ensures StockGains(n, Api(n, call), multiset{})
  {
    hide SendUserMessage, SendBroadcastInfo, Stock, InOrder;
    match call
    case CallUserMsg(sender, to, message, id, flags) =>
      SendIdle(n, sender, to, message, id, flags);
      IdleStock(n, Api(n, call));
    case CallBeacon => BeaconStock(n);
    case _ => RouteBufApart(n, Api(n, call));
  }

  lemma BeaconStock(n: Node)
    requires InOrder(n)
    ensures StockGains(n, Api(n, CallBeacon), multiset{})
  {
    hide Api, StockGains, InOrder, Diffs.AllChanges;
    BeaconCall(n);
    CallKeepsMe(n, CallBeacon);
    var n' := Api(n, CallBeacon);
    var fs := n'.io.handed[|n.io.handed|..];
    assert n'.io.handed == n.io.handed + fs;
    InfosOnly(n.users);
    PlainStock(n, n', fs);
  }

  lemma InfosOnly(t: Table)
    ensures forall i | 0 <= i < |Diffs.AllChanges(t)| :: Diffs.AllChanges(t)[i].Info?
  {
    ChunksAreInfo(Ascending(t.added), Ascending(t.removed));
    hide Chunks, Ascending;
  }

  lemma TimerStock(n: Node, garbled: U32 -> U32)
    requires InOrder(n)
    ensures StockGains(n, CleanupAcks(n, garbled), multiset{})
  {
    hide CleanupAcks, StockGains, InOrder, ReportedOf, Ascending;
    TimerOutcome(n, garbled);
    TimerKeepsMe(n, garbled);
    PlainStock(n, CleanupAcks(n, garbled), Reports(n, ReportedOf(n, Ascending(n.acks.Keys)), garbled));
  }

  lemma TimerKeepsMe(n: Node, garbled: U32 -> U32)
    ensures CleanupAcks(n, garbled).me == n.me
  {
    CleanupBehaves(n, garbled);
    hide CleanupAcks, Just;
  }

  // ---------- any sequence of activations ----------

  lemma EventStock(n: Node, e: Event)
    requires InOrder(n) && RandomSet(e.env)
    ensures StockGains(n, After(n, e), TakesIn(n, e))
  {
    hide HandlePacket, Api, CleanupAcks, Bag, InFrames, Echoed;
    var m := Awake(n, e.env);
    RouteBufApart(n, m);
    match e
    case Hear(f, _) => HearStock(m, f);
    case Ask(call, _) =>
      if call.CallData? {
        DataCallStock(m, call);
      } else if call.CallMove? {
        MoveCallStock(m, call);
      } else {
        OtherCallStock(m, call);
      }
    case Tick(_, garbled) => TimerStock(m, garbled);
  }

  ghost function AllTakenIn(n: Node, es: seq<Event>): multiset<Parcel>
    decreases |es|
  {
    if es == [] then multiset{} else AllTakenIn(n, es[..|es| - 1]) + TakesIn(Play(n, es[..|es| - 1]), es[|es| - 1])
  }

  /** Over any sequence of received frames, calls and timer passes: the data for single nodes and the move requests a node took
      in are, as a bag, exactly those that wait for a route and those it handed over. */
  lemma {:induction false} ParcelsConserved(n: Node, es: seq<Event>)
    requires InOrder(n) && forall i | 0 <= i < |es| :: RandomSet(es[i].env)
    ensures Stock(Play(n, es)) == Stock(n) + AllTakenIn(n, es) && InOrder(Play(n, es))
    decreases |es|
  {
    hide Stock, InOrder, After, TakesIn, RandomSet;
    if es != [] {
      ParcelsConserved(n, es[..|es| - 1]);
      EventStock(Play(n, es[..|es| - 1]), es[|es| - 1]);
    }
  }

  /** From an empty node, where nothing else is in stock. */
  lemma ParcelsFromBoot(me: U32, env: Env, es: seq<Event>)
    requires forall i | 0 <= i < |es| :: RandomSet(es[i].env)
    ensures Stock(Play(Fresh(me, env), es)) == AllTakenIn(Fresh(me, env), es)
  {
    assert Stock(Fresh(me, env)) == multiset{} by {
      assert AllTexts(map[]) == map[] && AllMoves(map[]) == map[];
    }
    hide Stock, Play, AllTakenIn;
    ParcelsConserved(Fresh(me, env), es);
  }
}
