/** A route reply reaches a node: everything that waited for the route leaves, in
    a fixed order, and the reply travels on. */
module RouteArrival {
  import opened Packets
  import opened Sessions
  import opened Nodes
  import opened Effects
  import opened Network
  import opened Mail
  import opened Delivery
  import opened Resend
  import opened HandlerOutcomes

  // ---------- waiting data ----------

  /** The waiting data as frames toward t, each under its own packet ID or, if it has none, the next one drawn. */
  ghost function DataOut(n: Node, t: U32, ps: seq<PendingData>): seq<Frame>
    requires t in n.routes
    decreases |ps|
  {
    if ps == [] then []
    else
      var k := |ps| - 1;
      DataOut(n, t, ps[..k])
      + [Frame(n.routes[t].nextHop, n.me, n.me,
               if ps[k].id == 0 then n.io.env.random(n.io.drawn + Unnumbered(ps[..k])) else ps[k].id,
               0, 0, Data(t, ps[k].data))]
  }

  function Unnumbered(ps: seq<PendingData>): nat
    decreases |ps|
  {
    if ps == [] then 0 else Unnumbered(ps[..|ps| - 1]) + if ps[|ps| - 1].id == 0 then 1 else 0
  }

  lemma {:induction false} DataItemsLeave(n: Node, t: U32, ps: seq<PendingData>)
    requires t in n.routes
    ensures Sends(n, FlushDataItems(n, t, ps), DataOut(n, t, ps), Unnumbered(ps))
    decreases |ps|
  {
    hide Transmit;
    if ps != [] {
      var k := |ps| - 1;
      DataItemsLeave(n, t, ps[..k]);
      var m := FlushDataItems(n, t, ps[..k]);
      var id := if ps[k].id == 0 then Draw(m) else ps[k].id;
      TransmitSends(if ps[k].id == 0 then Drew(m) else m, Frame(m.routes[t].nextHop, m.me, m.me, id, 0, 0, Data(t, ps[k].data)));
    }
  }

  // ---------- waiting move requests ----------

  /** The waiting move requests as frames toward t, each under a drawn packet ID. */
  ghost function MovesOut(n: Node, t: U32, rs: seq<MoveReq>): seq<Frame>
    requires t in n.routes
  {
    seq(|rs|, i requires 0 <= i < |rs| => Made(n, i, n.routes[t].nextHop, n.me, MoveUser(rs[i].user, t)))
  }

  lemma {:induction false} MoveItemsLeave(n: Node, t: U32, rs: seq<MoveReq>)
    requires t in n.routes && forall i | 0 <= i < |rs| :: rs[i].oldNode == t
    ensures Sends(n, FlushMoveItems(n, rs), MovesOut(n, t, rs), |rs|)
    decreases |rs|
  {
    hide Originate, MovesOut;
    if rs == [] {
      assert MovesOut(n, t, rs) == [] by { NoMoves(n, t); }
    } else {
      var k := |rs| - 1;
      MoveItemsLeave(n, t, rs[..k]);
      var m := FlushMoveItems(n, rs[..k]);
      OriginateSends(m, m.routes[t].nextHop, m.me, MoveUser(rs[k].user, t));
      MovesSnoc(n, m, t, rs);
    }
  }

  lemma NoMoves(n: Node, t: U32)
    requires t in n.routes
    ensures MovesOut(n, t, []) == []
  {
  }

  lemma MovesSnoc(n: Node, m: Node, t: U32, rs: seq<MoveReq>)
    requires t in n.routes && rs != [] && m.me == n.me && m.io.env == n.io.env && m.io.drawn == n.io.drawn + |rs| - 1
    ensures MovesOut(n, t, rs)
         == MovesOut(n, t, rs[..|rs| - 1]) + [Made(m, 0, n.routes[t].nextHop, m.me, MoveUser(rs[|rs| - 1].user, t))]
  {
  }

  /** Move requests wait under the node they are for. */
  predicate MovesKeyed(b: Buffers) {
    forall d, i | d in b.moveBuf && 0 <= i < |b.moveBuf[d]| :: b.moveBuf[d][i].oldNode == d
  }

  // ---------- the reply ----------

  /** The node k drawn packet IDs later. */
  ghost function Later(n: Node, k: nat): Node {
    n.(io := n.io.(drawn := n.io.drawn + k))
  }

  /** A route reply for t: the node has the route; the data that waited for t leaves, then the move requests, then the
      user messages, each group in order; last the reply goes on toward whoever asked, its own hop count raised. Nothing
      is left waiting for t but user messages whose user is now placed behind t without a route. */
  lemma RrepOutcome(n: Node, f: Frame)
    requires Accepts(n, f) && f.body.Rrep? && IdsSet(n.bufs) && MovesKeyed(n.bufs)
    ensures f.body.target in HandlePacket(n, f).routes
    ensures var n', t := HandlePacket(n, f), f.body.target;
            var m, ds, rs, us := n.(routes := n'.routes), At(n.bufs.dataBuf, t), At(n.bufs.moveBuf, t), At(n.bufs.routeBuf, t);
            var i := Unnumbered(ds);
            var last := Later(m, i + |rs|);
            && Says(n, n', []) && n'.users == n.users && n'.peers == n.peers
            && Hands(n, n', DataOut(m, t, ds) + MovesOut(Later(m, i), t, rs) + Resent(last, us)
                            + Homeward(n, n'.routes, f, Rrep(t, (f.body.numHops + 1) % 256)))
            && n'.bufs.dataBuf == n.bufs.dataBuf - {t} && n'.bufs.moveBuf == n.bufs.moveBuf - {t}
            && (forall u: U32 :: At(n'.bufs.msgBuf, u) == At(n.bufs.msgBuf, u) + ForUser(last, us, u))
            && (forall h: U32 :: h != t ==> At(n'.bufs.routeBuf, h) == At(n.bufs.routeBuf, h) + ForRoute(last, us, h))
            && At(n'.bufs.routeBuf, t) == ForRoute(last, us, t)
  {
    hide HandlePacket, LearnRrep, Flush, Backward, Resent, ForUser, ForRoute, DataOut, MovesOut, IdsSet, MovesKeyed;
    var t := f.body.target;
    var a := LearnRrep(n.(seen := n.seen + {f.id}), f);
    HandledBy(n, f);
    ReplyLearned(n.(seen := n.seen + {f.id}), f);
    var g := Flush(a, t);
    Flushed(n, a, t);
    BackwardSends(g, f, Rrep(t, Inc8(f.body.numHops)));
    assert HandlePacket(n, f) == Backward(g, f, Rrep(t, Inc8(f.body.numHops)));
  }

  lemma ReplyLearned(n: Node, f: Frame)
    requires f.body.Rrep?
    ensures var a := LearnRrep(n, f);
            f.body.target in a.routes && a == n.(routes := a.routes)
  {
  }

  /** The three flushes, one after the other. */
  lemma Flushed(n: Node, a: Node, t: U32)
    requires a.me == n.me && a.bufs == n.bufs && a.io == n.io && a.peers == n.peers && a.users == n.users && t in a.routes
    requires IdsSet(n.bufs) && MovesKeyed(n.bufs)
    ensures var g := Flush(a, t);
            var m, ds, rs, us := n.(routes := g.routes), At(n.bufs.dataBuf, t), At(n.bufs.moveBuf, t), At(n.bufs.routeBuf, t);
            var i := Unnumbered(ds);
            var last := Later(m, i + |rs|);
            && Says(n, g, []) && g.me == n.me && g.users == n.users && g.peers == n.peers && g.routes == a.routes
            && Hands(n, g, DataOut(m, t, ds) + MovesOut(Later(m, i), t, rs) + Resent(last, us))
            && g.bufs.dataBuf == n.bufs.dataBuf - {t} && g.bufs.moveBuf == n.bufs.moveBuf - {t}
            && (forall u: U32 :: At(g.bufs.msgBuf, u) == At(n.bufs.msgBuf, u) + ForUser(last, us, u))
            && (forall h: U32 :: h != t ==> At(g.bufs.routeBuf, h) == At(n.bufs.routeBuf, h) + ForRoute(last, us, h))
            && At(g.bufs.routeBuf, t) == ForRoute(last, us, t)
  {
    hide FlushData, FlushMove, FlushUser, Resent, ForUser, ForRoute, DataOut, MovesOut, MovesKeyed, IdsSet, At;
    var m, ds, rs, us := n.(routes := a.routes), At(n.bufs.dataBuf, t), At(n.bufs.moveBuf, t), At(n.bufs.routeBuf, t);
    var i := Unnumbered(ds);
    DataFlushed(a, t);
    SameDataOut(a, m, t, ds);
    var d := FlushData(a, t);
    SameKeys(n.bufs, d.bufs);
    MovesFlushed(d, t);
    SameMovesOut(d, Later(m, i), t, rs);
    var e := FlushMove(d, t);
    SameKeys(n.bufs, e.bufs);
    FlushUserResends(e, t);
    SameWays(e, Later(m, i + |rs|), us);
  }

  lemma SameKeys(b: Buffers, b': Buffers)
    requires b'.msgBuf == b.msgBuf && b'.routeBuf == b.routeBuf
    ensures IdsSet(b) ==> IdsSet(b')
    ensures b'.moveBuf == b.moveBuf && MovesKeyed(b) ==> MovesKeyed(b')
  {
  }

  lemma DataFlushed(n: Node, t: U32)
    requires t in n.routes
    ensures var ps := At(n.bufs.dataBuf, t);
            var n1 := n.(bufs := n.bufs.(dataBuf := n.bufs.dataBuf - {t}));
            Sends(n1, FlushData(n, t), DataOut(n, t, ps), Unnumbered(ps))
  {
    hide FlushDataItems, Sends, DataOut;
    var n1 := n.(bufs := n.bufs.(dataBuf := n.bufs.dataBuf - {t}));
    DataItemsLeave(n1, t, At(n.bufs.dataBuf, t));
    SameDataOut(n1, n, t, At(n.bufs.dataBuf, t));
  }

  lemma MovesFlushed(n: Node, t: U32)
    requires t in n.routes && MovesKeyed(n.bufs)
    ensures var rs := At(n.bufs.moveBuf, t);
            var n1 := n.(bufs := n.bufs.(moveBuf := n.bufs.moveBuf - {t}));
            Sends(n1, FlushMove(n, t), MovesOut(n, t, rs), |rs|)
  {
    hide FlushMoveItems, Sends, MovesOut;
    var n1 := n.(bufs := n.bufs.(moveBuf := n.bufs.moveBuf - {t}));
    MoveItemsLeave(n1, t, At(n.bufs.moveBuf, t));
    SameMovesOut(n1, n, t, At(n.bufs.moveBuf, t));
  }

  lemma {:induction false} SameDataOut(n: Node, n1: Node, t: U32, ps: seq<PendingData>)
    requires n1.me == n.me && n1.routes == n.routes && n1.io.env == n.io.env && n1.io.drawn == n.io.drawn && t in n.routes
    ensures DataOut(n1, t, ps) == DataOut(n, t, ps)
    decreases |ps|
  {
    if ps != [] {
      SameDataOut(n, n1, t, ps[..|ps| - 1]);
    }
  }

  lemma SameMovesOut(n: Node, n1: Node, t: U32, rs: seq<MoveReq>)
    requires n1.me == n.me && n1.routes == n.routes && n1.io.env == n.io.env && n1.io.drawn == n.io.drawn && t in n.routes
    ensures MovesOut(n1, t, rs) == MovesOut(n, t, rs)
  {
  }
}
