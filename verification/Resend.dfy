/** Messages that waited for a route are sent again without their flags, so a
    message for the uplink is then looked up like one between users. */
module Resend {
  import opened Packets
  import opened Sessions
  import opened Nodes
  import opened Effects
  import opened Network
  import opened Mail
  import opened Delivery
  import opened Conservation
  import opened Uplink

  // ---------- where each waiting message goes ----------

  datatype Way =
    | ToHome(home: U32)
    | AwaitsUser
    | AwaitsRoute(home: U32)
    | Dropped

  /** A resent message follows the user table, whatever it was waiting for. */
  ghost function WayOf(n: Node, m: PendingUser): Way {
    if m.destUser !in n.peers.gut then AwaitsUser
    else
      var home := n.peers.gut[m.destUser];
      if home !in n.routes then AwaitsRoute(home)
      else if home == 0 || n.routes[home].nextHop == 0 then Dropped
      else ToHome(home)
  }

  /** How many of the messages make the node ask the mesh for something. */
  ghost function Asking(n: Node, ms: seq<PendingUser>): nat
    decreases |ms|
  {
    if ms == [] then 0
    else
      var w := WayOf(n, ms[|ms| - 1]);
      Asking(n, ms[..|ms| - 1]) + if w.AwaitsUser? || w.AwaitsRoute? then 1 else 0
  }

  ghost function Request(n: Node, k: nat, body: Body): Frame {
    Frame(BROADCAST_ADDR, n.me, n.me, n.io.env.random(n.io.drawn + k), 0, 0, body)
  }

  ghost function FrameFor(n: Node, m: PendingUser, k: nat): seq<Frame> {
    var w := WayOf(n, m);
    if w.ToHome? then [Carrier(n, w.home, m, 0)]
    else if w.AwaitsUser? then [Request(n, k, Ureq(m.destUser))]
    else if w.AwaitsRoute? then [Request(n, k, Rreq(w.home))]
    else []
  }

  /** The frames handed over, one for each message in order: the message itself on its way to its user's
      home, or the request it makes the node send. */
  ghost function Resent(n: Node, ms: seq<PendingUser>): seq<Frame>
    decreases |ms|
  {
    if ms == [] then []
    else
      var m, before := ms[|ms| - 1], ms[..|ms| - 1];
      Resent(n, before) + FrameFor(n, m, Asking(n, before))
  }

  /** Those that now wait for user u to be found, in order. */
  ghost function ForUser(n: Node, ms: seq<PendingUser>, u: U32): seq<PendingMsg>
    decreases |ms|
  {
    if ms == [] then []
    else
      var m := ms[|ms| - 1];
      ForUser(n, ms[..|ms| - 1], u)
      + if m.destUser == u && WayOf(n, m).AwaitsUser? then [PendingMsg(m.id, m.sender, m.message)] else []
  }

  /** Those that now wait for a route to h, in order. */
  ghost function ForRoute(n: Node, ms: seq<PendingUser>, h: U32): seq<PendingUser>
    decreases |ms|
  {
    if ms == [] then []
    else ForRoute(n, ms[..|ms| - 1], h) + if WayOf(n, ms[|ms| - 1]) == AwaitsRoute(h) then [ms[|ms| - 1]] else []
  }

  // ---------- one message ----------

  /** n' is n after sending these messages again. */
  ghost predicate SentAgain(n: Node, n': Node, ms: seq<PendingUser>) {
    && n'.me == n.me && n'.routes == n.routes && n'.peers == n.peers && n'.users == n.users && n'.io.env == n.io.env
    && n'.io.drawn == n.io.drawn + Asking(n, ms)
    && n'.io.handed == n.io.handed + Resent(n, ms) && n'.io.notes == n.io.notes
    && n'.bufs.dataBuf == n.bufs.dataBuf && n'.bufs.moveBuf == n.bufs.moveBuf
    && (forall u: U32 :: At(n'.bufs.msgBuf, u) == At(n.bufs.msgBuf, u) + ForUser(n, ms, u))
    && (forall h: U32 :: At(n'.bufs.routeBuf, h) == At(n.bufs.routeBuf, h) + ForRoute(n, ms, h))
  }

  lemma One(n: Node, m: PendingUser)
    ensures Asking(n, [m]) == if WayOf(n, m).AwaitsUser? || WayOf(n, m).AwaitsRoute? then 1 else 0
    ensures Resent(n, [m]) == FrameFor(n, m, 0)
    ensures forall u: U32 :: ForUser(n, [m], u)
              == if m.destUser == u && WayOf(n, m).AwaitsUser? then [PendingMsg(m.id, m.sender, m.message)] else []
    ensures forall h: U32 :: ForRoute(n, [m], h) == if WayOf(n, m) == AwaitsRoute(h) then [m] else []
  {
    assert [m][..0] == [];
    hide WayOf, FrameFor;
  }

  lemma SendsAgain(n: Node, m: PendingUser)
    requires m.id != 0
    ensures SentAgain(n, SendUserMessage(n, m.sender, m.destUser, m.message, m.id, 0), [m])
  {
    hide Transmit, Originate, SendUserMessage, Asking, Resent, ForUser, ForRoute;
    SendIsPlace(n, m.sender, m.destUser, m.message, m.id, 0);
    One(n, m);
    var w := WayOf(n, m);
    if w.ToHome? {
      TransmitKeeps(n, Carrier(n, w.home, m, 0));
    } else if w.AwaitsUser? {
      var bufs := n.bufs.(msgBuf := n.bufs.msgBuf[m.destUser := At(n.bufs.msgBuf, m.destUser) + [PendingMsg(m.id, m.sender, m.message)]]);
      AskKeeps(n.(bufs := bufs), Ureq(m.destUser));
    } else if w.AwaitsRoute? {
      var bufs := n.bufs.(routeBuf := n.bufs.routeBuf[w.home := At(n.bufs.routeBuf, w.home) + [m]]);
      AskKeeps(n.(bufs := bufs), Rreq(w.home));
    }
  }

  lemma AskKeeps(n: Node, body: Body)
    ensures var n' := Originate(n, BROADCAST_ADDR, n.me, body);
            && n'.me == n.me && n'.routes == n.routes && n'.peers == n.peers && n'.users == n.users && n'.bufs == n.bufs
            && n'.io.env == n.io.env && n'.io.drawn == n.io.drawn + 1 && n'.io.notes == n.io.notes
            && n'.io.handed == n.io.handed + [Request(n, 0, body)]
  {
    TransmitKeeps(Drew(n), Frame(BROADCAST_ADDR, n.me, n.me, Draw(n), 0, 0, body));
    hide Transmit;
  }

  // ---------- the whole buffer ----------

  lemma Snoc(n: Node, n1: Node, ms: seq<PendingUser>, m: PendingUser)
    requires n1.me == n.me && n1.routes == n.routes && n1.peers == n.peers && n1.io.env == n.io.env
    requires n1.io.drawn == n.io.drawn + Asking(n, ms)
    ensures Asking(n, ms + [m]) == Asking(n, ms) + Asking(n1, [m])
    ensures Resent(n, ms + [m]) == Resent(n, ms) + Resent(n1, [m])
    ensures forall u: U32 :: ForUser(n, ms + [m], u) == ForUser(n, ms, u) + ForUser(n1, [m], u)
    ensures forall h: U32 :: ForRoute(n, ms + [m], h) == ForRoute(n, ms, h) + ForRoute(n1, [m], h)
  {
    assert (ms + [m])[..|ms|] == ms;
    One(n1, m);
    assert WayOf(n1, m) == WayOf(n, m);
    assert FrameFor(n1, m, 0) == FrameFor(n, m, Asking(n, ms));
    hide WayOf, FrameFor;
  }

  lemma SentAgainSnoc(n: Node, n1: Node, n': Node, ms: seq<PendingUser>, m: PendingUser)
    requires SentAgain(n, n1, ms) && SentAgain(n1, n', [m])
    ensures SentAgain(n, n', ms + [m])
  {
    hide Asking, Resent, ForUser, ForRoute, At;
    Snoc(n, n1, ms, m);
    forall u: U32
      ensures At(n'.bufs.msgBuf, u) == At(n.bufs.msgBuf, u) + ForUser(n, ms + [m], u)
    {
      Join(At(n.bufs.msgBuf, u), ForUser(n, ms, u), ForUser(n1, [m], u));
    }
    forall h: U32
      ensures At(n'.bufs.routeBuf, h) == At(n.bufs.routeBuf, h) + ForRoute(n, ms + [m], h)
    {
      Join(At(n.bufs.routeBuf, h), ForRoute(n, ms, h), ForRoute(n1, [m], h));
    }
    Join(n.io.handed, Resent(n, ms), Resent(n1, [m]));
  }

  lemma Join<T>(a: seq<T>, b: seq<T>, c: seq<T>)
    ensures a + b + c == a + (b + c)
  {
  }

  lemma NothingSent(n: Node)
    ensures SentAgain(n, n, [])
  {
  }

  lemma {:induction false} FlushUserItemsResend(n: Node, ms: seq<PendingUser>)
    requires forall i | 0 <= i < |ms| :: ms[i].id != 0
    ensures SentAgain(n, FlushUserItems(n, ms), ms)
    decreases |ms|
  {
    hide SentAgain, SendUserMessage;
    if ms == [] {
      NothingSent(n);
    } else {
      var k := |ms| - 1;
      var n1 := FlushUserItems(n, ms[..k]);
      FlushUserItemsResend(n, ms[..k]);
      SendsAgain(n1, ms[k]);
      SentAgainSnoc(n, n1, FlushUserItems(n, ms), ms[..k], ms[k]);
      assert ms == ms[..k] + [ms[k]];
    }
  }

  /** When a route to `node` appears, every message that waited for it leaves in order, under its own packet
      ID and without flags, to where the user table places its user now: handed over toward that home, or
      waiting for the user to be found, or waiting for that home's route, with a request for each that
      waits. None is left under `node` unless it now waits for it again; all else that waits stays. */
  lemma FlushUserResends(n: Node, node: U32)
    requires IdsSet(n.bufs)
    ensures var n', ms := FlushUser(n, node), At(n.bufs.routeBuf, node);
            && n'.me == n.me && n'.routes == n.routes && n'.peers == n.peers && n'.users == n.users
            && n'.io.handed == n.io.handed + Resent(n, ms) && n'.io.notes == n.io.notes
            && (forall u: U32 :: At(n'.bufs.msgBuf, u) == At(n.bufs.msgBuf, u) + ForUser(n, ms, u))
            && (forall h: U32 :: h != node ==> At(n'.bufs.routeBuf, h) == At(n.bufs.routeBuf, h) + ForRoute(n, ms, h))
            && At(n'.bufs.routeBuf, node) == ForRoute(n, ms, node)
            && n'.bufs.dataBuf == n.bufs.dataBuf && n'.bufs.moveBuf == n.bufs.moveBuf
  {
    var ms := At(n.bufs.routeBuf, node);
    var n1 := n.(bufs := n.bufs.(routeBuf := n.bufs.routeBuf - {node}));
    FlushUserItemsResend(n1, ms);
    SameWays(n, n1, ms);
    hide FlushUserItems, Resent, ForUser, ForRoute, Asking;
  }

  lemma {:induction false} SameWays(n: Node, n1: Node, ms: seq<PendingUser>)
    requires n1.me == n.me && n1.routes == n.routes && n1.peers == n.peers && n1.io.env == n.io.env && n1.io.drawn == n.io.drawn
    ensures Asking(n1, ms) == Asking(n, ms) && Resent(n1, ms) == Resent(n, ms)
    ensures forall u: U32 :: ForUser(n1, ms, u) == ForUser(n, ms, u)
    ensures forall h: U32 :: ForRoute(n1, ms, h) == ForRoute(n, ms, h)
    decreases |ms|
  {
    if ms != [] {
      SameWays(n, n1, ms[..|ms| - 1]);
    }
  }

  /** A message that waited for the route to `node` is then sent toward `node` if and only if the user table
      places its user there; whether it asked for the uplink makes no difference. */
  lemma SentTowardIff(n: Node, node: U32, m: PendingUser)
    requires node in n.routes && node != 0 && n.routes[node].nextHop != 0 && m.id != 0
    ensures var n' := SendUserMessage(n, m.sender, m.destUser, m.message, m.id, 0);
            n'.io.handed == n.io.handed + [Carrier(n, node, m, 0)]
            <==> m.destUser in n.peers.gut && n.peers.gut[m.destUser] == node
  {
    SendsAgain(n, m);
    One(n, m);
    var fs := FrameFor(n, m, 0);
    hide Asking, Resent, ForUser, ForRoute, SendUserMessage;
    if n.io.handed + fs == n.io.handed + [Carrier(n, node, m, 0)] {
      assert |fs| == 1 && (n.io.handed + fs)[|n.io.handed|] == fs[0];
    }
  }

  /** A message for the uplink, its gateway without a route, its user not in the table: it waits under the
      gateway; when the route appears it is not sent to the gateway but waits for its user to be found. */
  lemma UplinkMessageStrays(n: Node, sender: U32, to: U32, text: seq<U8>, id: U32, r: Routes)
    requires id != 0 && n.peers.gateways != [] && to !in n.peers.gut
    requires GatewayTarget(n) !in n.routes && At(n.bufs.routeBuf, GatewayTarget(n)) == []
    ensures var g, m := GatewayTarget(n), PendingUser(id, sender, to, text);
            var n1 := SendUserMessage(n, sender, to, text, id, TO_GATEWAY);
            var n2 := FlushUser(n1.(routes := r), g);
            && At(n1.bufs.routeBuf, g) == [m]
            && At(n2.bufs.routeBuf, g) == [] && At(n2.bufs.msgBuf, to) == At(n.bufs.msgBuf, to) + [PendingMsg(id, sender, text)]
            && n2.io.handed == n.io.handed + [Request(n, 0, Rreq(g)), Request(n, 1, Ureq(to))]
  {
    var g, m := GatewayTarget(n), PendingUser(id, sender, to, text);
    var n1 := SendUserMessage(n, sender, to, text, id, TO_GATEWAY);
    var bufs := n.bufs.(routeBuf := n.bufs.routeBuf[g := At(n.bufs.routeBuf, g) + [m]]);
    AskKeeps(n.(bufs := bufs), Rreq(g));
    assert n1 == SendRreq(n.(bufs := bufs), g);
    hide Originate, SendUserMessage, FlushUser;
    var n1' := n1.(routes := r);
    FlushedOne(n1', g, m);
  }

  lemma FlushedOne(n: Node, g: U32, m: PendingUser)
    requires m.id != 0 && At(n.bufs.routeBuf, g) == [m] && m.destUser !in n.peers.gut
    ensures var n' := FlushUser(n, g);
            && n'.me == n.me && n'.routes == n.routes && n'.peers == n.peers
            && At(n'.bufs.routeBuf, g) == []
            && At(n'.bufs.msgBuf, m.destUser) == At(n.bufs.msgBuf, m.destUser) + [PendingMsg(m.id, m.sender, m.message)]
            && n'.io.handed == n.io.handed + [Request(n, 0, Ureq(m.destUser))]
  {
    var n1 := n.(bufs := n.bufs.(routeBuf := n.bufs.routeBuf - {g}));
    FlushUserItemsResend(n1, [m]);
    One(n1, m);
    hide FlushUserItems, Resent, ForUser, ForRoute, Asking;
  }

  // ---------- a history in which the uplink never sees the message ----------

  /** Hearing an error report addressed to this node: the route it names is gone. */
  lemma HearsError(n0: Node, f: Frame, env: Env)
    requires f.body.Rerr? && f.body.broken == f.body.reporter && f.origin == n0.me && Accepts(n0, f)
    ensures After(n0, Hear(f, env))
         == Awake(n0, env).(seen := n0.seen + {f.id}, routes := n0.routes - {f.body.originalDest})
  {
  }

  /** Hearing the reply to this node's route request when only user messages wait for that route. */
  lemma HearsReply(n0: Node, f: Frame, env: Env, m: PendingUser)
    requires f.body.Rrep? && f.origin == n0.me && Accepts(n0, f)
    requires At(n0.bufs.dataBuf, f.body.target) == [] && At(n0.bufs.moveBuf, f.body.target) == []
    requires At(n0.bufs.routeBuf, f.body.target) == [m] && m.id != 0 && m.destUser !in n0.peers.gut
    ensures var n, t := After(n0, Hear(f, env)), f.body.target;
            && t in n.routes && n.peers == n0.peers && At(n.bufs.routeBuf, t) == []
            && At(n.bufs.msgBuf, m.destUser) == At(n0.bufs.msgBuf, m.destUser) + [PendingMsg(m.id, m.sender, m.message)]
            && n.io.handed == n0.io.handed + [Request(Awake(n0, env), 0, Ureq(m.destUser))]
  {
    var t := f.body.target;
    var a := LearnRrep(Awake(n0, env).(seen := n0.seen + {f.id}), f);
    assert t in a.routes && a.peers == n0.peers && a.bufs == n0.bufs && a.me == n0.me;
    assert a.io == Awake(n0, env).io;
    var b := FlushMove(FlushData(a, t), t);
    assert b == a.(bufs := a.bufs.(dataBuf := a.bufs.dataBuf - {t}, moveBuf := a.bufs.moveBuf - {t}));
    hide LearnRrep, FlushData, FlushMove, FlushUser;
    FlushedOne(b, t, m);
  }

  lemma FourEvents(n: Node, a: Event, b: Event, c: Event, d: Event)
    ensures Play(n, [a, b, c, d]) == After(After(After(After(n, a), b), c), d)
  {
    TwoEvents(n, a, b);
    assert [a, b, c, d][..3] == [a, b, c] && [a, b, c][..2] == [a, b];
    hide After;
  }

  predicate NoUserMessages(fs: seq<Frame>) {
    forall i | 0 <= i < |fs| :: !fs[i].body.UserMsg?
  }

  /** Node 1 hears gateway 5 next door, loses its route to it by an error report, accepts a message from user 9
      to user 42 for the uplink, and then gets the route back. The message has not been handed over: it
      waits, without its flag, for user 42 to be found. */
  lemma UplinkMessageLostToUserSearch(env: Env, text: seq<U8>)
    ensures var es := [
              Hear(Announcement(5, 5, 70, 0), env),
              Hear(Frame(1, 8, 1, 71, 0, 0, Rerr(8, 8, 5, 33)), env),
              Ask(CallUserMsg(9, 42, text, 77, TO_GATEWAY), env),
              Hear(Frame(1, 5, 1, 72, 0, 0, Rrep(5, 0)), env)];
            var n := Play(Fresh(1, env), es);
            && n.peers.gateways == [5] && 5 in n.routes
            && At(n.bufs.routeBuf, 5) == [] && At(n.bufs.msgBuf, 42) == [PendingMsg(77, 9, text)]
            && NoUserMessages(n.io.handed)
  {
    hide After, LearnInfo, Play, Learned, Closest;
    var f1, f2, f4 := Announcement(5, 5, 70, 0), Frame(1, 8, 1, 71, 0, 0, Rerr(8, 8, 5, 33)), Frame(1, 5, 1, 72, 0, 0, Rrep(5, 0));
    var n0 := Fresh(1, env);
    var n1 := After(n0, Hear(f1, env));
    HearsFirst(n0, f1, env);
    var n2 := After(n1, Hear(f2, env));
    HearsError(n1, f2, env);
    var call := CallUserMsg(9, 42, text, 77, TO_GATEWAY);
    var n3 := After(n2, Ask(call, env));
    AsksUplink(n2, 9, 42, text, 77, env);
    HearsReply(n3, f4, env, PendingUser(77, 9, 42, text));
    FourEvents(n0, Hear(f1, env), Hear(f2, env), Ask(call, env), Hear(f4, env));
  }

  /** A booted node hears its first announcement. */
  lemma HearsFirst(n0: Node, f: Frame, env: Env)
    requires n0 == Fresh(1, env) && f == Announcement(5, 5, 70, 0)
    ensures var n := After(n0, Hear(f, env));
            && n.me == 1 && n.acks == map[] && n.seen == {70} && n.peers.gateways == [5] && n.peers.closestGw == 0
            && n.peers.gut == map[] && n.bufs == n0.bufs && NoUserMessages(n.io.handed)
  {
    HearsBroadcast(n0, f, env);
    NewAnnouncement(n0, f);
    var m := Awake(n0, env).(seen := n0.seen + {f.id});
    LearnOnlyLearns(m, f);
    LearnInfoGut(m, f);
    var a := Learn(m, f);
    TransmitKeeps(a, f.(prev := a.me, hops := Inc8(f.hops)));
    assert After(n0, Hear(f, env)) == Transmit(a, f.(prev := a.me, hops := Inc8(f.hops))) by {
      hide Transmit, LearnInfo;
    }
    hide After, LearnInfo, Transmit, Learned, Closest, Clean, Ledger;
  }

  lemma AsksUplink(n0: Node, sender: U32, to: U32, text: seq<U8>, id: U32, env: Env)
    requires id != 0 && n0.peers.gateways != [] && GatewayTarget(n0) !in n0.routes && At(n0.bufs.routeBuf, GatewayTarget(n0)) == []
    ensures var n, g := After(n0, Ask(CallUserMsg(sender, to, text, id, TO_GATEWAY), env)), GatewayTarget(n0);
            && n.me == n0.me && n.peers == n0.peers && n.seen == n0.seen && n.acks == n0.acks
            && n.bufs == n0.bufs.(routeBuf := n.bufs.routeBuf) && At(n.bufs.routeBuf, g) == [PendingUser(id, sender, to, text)]
            && (NoUserMessages(n0.io.handed) ==> NoUserMessages(n.io.handed))
  {
    var m := Awake(n0, env);
    var g := GatewayTarget(n0);
    var a := m.(bufs := m.bufs.(routeBuf := m.bufs.routeBuf[g := At(m.bufs.routeBuf, g) + [PendingUser(id, sender, to, text)]]));
    AskKeeps(a, Rreq(g));
    BroadcastKeepsAcks(Drew(a), Frame(BROADCAST_ADDR, a.me, a.me, Draw(a), 0, 0, Rreq(g)));
    assert SendUserMessage(m, sender, to, text, id, TO_GATEWAY) == SendRreq(a, g) by {
      hide Originate;
    }
    hide Transmit, SendUserMessage;
  }
}
