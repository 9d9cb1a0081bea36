/** What the calls of the phone side and the timer leave behind: which frames are
    handed over, what waits for what, and what the phones are told. */
module CallOutcomes {
  import opened Packets
  import opened Ordered
  import opened Sessions
  import opened Nodes
  import opened Network
  import opened HandlerOutcomes
  import opened Diffs
  import opened AckOutcomes

  /** The packet ID a call uses and how many were drawn for it: the caller's, or the next one drawn. */
  ghost function IdFor(n: Node, id: U32): (U32, nat) {
    if id == 0 then (n.io.env.random(n.io.drawn), 1) else (id, 0)
  }

  /** x waits last under key d; everything else that waits is as it was. */
  ghost predicate Joins<T>(b: map<U32, seq<T>>, b': map<U32, seq<T>>, d: U32, x: T) {
    && d in b' && b' - {d} == b - {d}
    && b'[d] == (if d in b then b[d] else []) + [x]
  }

  /** Data for all nodes or for a routed one is handed over at once; other data waits under its destination, last in
      line, and one route request goes out. */
  lemma DataCall(n: Node, dest: U32, data: seq<U8>, id: U32, flags: U8)
    ensures var n', i, k := Api(n, CallData(dest, data, id, flags)), IdFor(n, id).0, IdFor(n, id).1;
            && Says(n, n', []) && n'.routes == n.routes && n'.peers == n.peers && n'.users == n.users
            && (dest == 0xFFFF_FFFF ==>
                  n'.bufs == n.bufs && Hands(n, n', [Frame(dest, n.me, n.me, i, flags, 0, Data(dest, data))]))
            && (dest != 0xFFFF_FFFF && dest in n.routes ==>
                  n'.bufs == n.bufs && Hands(n, n', [Frame(n.routes[dest].nextHop, n.me, n.me, i, flags, 0, Data(dest, data))]))
            && (dest != 0xFFFF_FFFF && dest !in n.routes ==>
                  && n'.bufs == n.bufs.(dataBuf := n'.bufs.dataBuf)
                  && Joins(n.bufs.dataBuf, n'.bufs.dataBuf, dest, PendingData(i, data))
                  && Hands(n, n', [Made(n, k, 0xFFFF_FFFF, n.me, Rreq(dest))]))
  {
    hide Transmit, Originate;
    var i := IdFor(n, id).0;
    var n1 := if id == 0 then Drew(n) else n;
    if dest == BROADCAST_ADDR {
      TransmitSends(n1, Frame(dest, n.me, n.me, i, flags, 0, Data(dest, data)));
    } else if dest in n.routes {
      TransmitSends(n1, Frame(n.routes[dest].nextHop, n.me, n.me, i, flags, 0, Data(dest, data)));
    } else {
      var m := n1.(bufs := n1.bufs.(dataBuf := n1.bufs.dataBuf[dest := At(n1.bufs.dataBuf, dest) + [PendingData(i, data)]]));
      OriginateSends(m, BROADCAST_ADDR, m.me, Rreq(dest));
    }
  }

  /** A user message goes to its target: for the uplink the remembered gateway, or the first known if none is; otherwise
      the node the user table names. Toward a routed target it is handed over at once (unless an ID on the way is unset);
      for an unrouted one it waits, with a route request; with no entry in the table it waits for its user, with a user
      request; with no gateway known a message for the uplink is dropped. */
  lemma UserMsgCall(n: Node, sender: U32, to: U32, message: seq<U8>, id: U32, flags: U8)
    ensures var n', i, k := Api(n, CallUserMsg(sender, to, message, id, flags)), IdFor(n, id).0, IdFor(n, id).1;
            var up, gws := flags == 0x02, n.peers.gateways;
            && Says(n, n', []) && n'.routes == n.routes && n'.peers == n.peers && n'.users == n.users
            && (up && gws == [] ==> n'.bufs == n.bufs && Hands(n, n', []))
            && (!up && to !in n.peers.gut ==>
                  && n'.bufs == n.bufs.(msgBuf := n'.bufs.msgBuf)
                  && Joins(n.bufs.msgBuf, n'.bufs.msgBuf, to, PendingMsg(i, sender, message))
                  && Hands(n, n', [Made(n, k, 0xFFFF_FFFF, n.me, Ureq(to))]))
            && ((if up then gws != [] else to in n.peers.gut) ==>
                  var t := if !up then n.peers.gut[to] else if n.peers.closestGw == 0 then gws[0] else n.peers.closestGw;
                  if t !in n.routes then
                    && n'.bufs == n.bufs.(routeBuf := n'.bufs.routeBuf)
                    && Joins(n.bufs.routeBuf, n'.bufs.routeBuf, t, PendingUser(i, sender, to, message))
                    && Hands(n, n', [Made(n, k, 0xFFFF_FFFF, n.me, Rreq(t))])
                  else
                    && n'.bufs == n.bufs
                    && Hands(n, n', if t == 0 || n.routes[t].nextHop == 0 then []
                                    else [Frame(n.routes[t].nextHop, n.me, n.me, i, flags, 0, UserMsg(sender, to, t, message))]))
  {
    hide Transmit, Originate;
    var i := IdFor(n, id).0;
    var n1 := if id == 0 then Drew(n) else n;
    var m := PendingUser(i, sender, to, message);
    if flags == TO_GATEWAY {
      if n.peers.gateways != [] {
        ViaSends(n1, m, GatewayTarget(n), flags);
      }
    } else if to in n.peers.gut {
      ViaSends(n1, m, n.peers.gut[to], flags);
    } else {
      var p := n1.(bufs := n1.bufs.(msgBuf := n1.bufs.msgBuf[to := At(n1.bufs.msgBuf, to) + [PendingMsg(i, sender, message)]]));
      OriginateSends(p, BROADCAST_ADDR, p.me, Ureq(to));
    }
  }

  lemma ViaSends(n: Node, m: PendingUser, t: U32, flags: U8)
    ensures var n' := SendUserVia(n, m, t, flags);
            && Says(n, n', []) && n'.routes == n.routes && n'.peers == n.peers && n'.users == n.users
            && (t !in n.routes ==>
                  && n'.bufs == n.bufs.(routeBuf := n'.bufs.routeBuf)
                  && Joins(n.bufs.routeBuf, n'.bufs.routeBuf, t, m)
                  && Hands(n, n', [Made(n, 0, 0xFFFF_FFFF, n.me, Rreq(t))]))
            && (t in n.routes ==>
                  && n'.bufs == n.bufs
                  && Hands(n, n', if t == 0 || n.routes[t].nextHop == 0 then []
                                  else [Frame(n.routes[t].nextHop, n.me, n.me, m.id, flags, 0, UserMsg(m.sender, m.destUser, t, m.message))]))
  {
    hide Transmit, Originate;
    if t in n.routes {
      TransmitSends(n, Frame(n.routes[t].nextHop, n.me, n.me, m.id, flags, 0, UserMsg(m.sender, m.destUser, t, m.message)));
    } else {
      var p := n.(bufs := n.bufs.(routeBuf := n.bufs.routeBuf[t := At(n.bufs.routeBuf, t) + [m]]));
      OriginateSends(p, BROADCAST_ADDR, p.me, Rreq(t));
    }
  }

  /** A move request goes toward the old home, or waits for a route to it, with a route request. */
  lemma MoveCall(n: Node, user: U32, oldNode: U32)
    ensures var n' := Api(n, CallMove(user, oldNode));
            && Says(n, n', []) && n'.routes == n.routes && n'.peers == n.peers && n'.users == n.users
            && (oldNode in n.routes ==>
                  n'.bufs == n.bufs && Hands(n, n', [Made(n, 0, n.routes[oldNode].nextHop, n.me, MoveUser(user, oldNode))]))
            && (oldNode !in n.routes ==>
                  && n'.bufs == n.bufs.(moveBuf := n'.bufs.moveBuf)
                  && Joins(n.bufs.moveBuf, n'.bufs.moveBuf, oldNode, MoveReq(user, oldNode))
                  && Hands(n, n', [Made(n, 0, 0xFFFF_FFFF, n.me, Rreq(oldNode))]))
  {
    hide Originate;
    if oldNode in n.routes {
      OriginateSends(n, n.routes[oldNode].nextHop, n.me, MoveUser(user, oldNode));
    } else {
      var m := n.(bufs := n.bufs.(moveBuf := n.bufs.moveBuf[oldNode := At(n.bufs.moveBuf, oldNode) + [MoveReq(user, oldNode)]]));
      OriginateSends(m, BROADCAST_ADDR, m.me, Rreq(oldNode));
    }
  }

  /** A beacon carries the difference, or an empty payload if there is none, all under one packet ID, and says whether this
      node has the uplink; the difference is forgotten. */
  lemma BeaconCall(n: Node)
    ensures var n', t := Api(n, CallBeacon), n.users;
            var bs := if t.added == {} && t.removed == {} then [Info(0, 0, [])] else AllChanges(t);
            var flags: U8 := if n.io.env.gwOnline then 0x03 else 0x00;
            && Says(n, n', []) && n'.routes == n.routes && n'.peers == n.peers && n'.bufs == n.bufs
            && n'.users == Table(t.users, {}, {})
            && Hands(n, n', seq(|bs|, i requires 0 <= i < |bs| =>
                                  Frame(0xFFFF_FFFF, n.me, n.me, n.io.env.random(n.io.drawn), flags, 0, bs[i])))
  {
    hide Transmit, Chunks, Ascending;
    var m := Drew(n).(users := ClearDiff(n.users));
    if n.users.added == {} && n.users.removed == {} {
      TransmitSends(m, InfoHeader(n));
    } else {
      AllSent(m, InfoHeader(n), AllChanges(n.users));
    }
  }

  lemma {:induction false} AllSent(n: Node, hdr: Frame, bs: seq<Body>)
    ensures Sends(n, TransmitAll(n, hdr, bs), seq(|bs|, i requires 0 <= i < |bs| => hdr.(body := bs[i])), 0)
    decreases |bs|
  {
    hide Transmit;
    if bs != [] {
      var m := Transmit(n, hdr.(body := bs[0]));
      TransmitSends(n, hdr.(body := bs[0]));
      AllSent(m, hdr, bs[1..]);
      assert seq(|bs|, i requires 0 <= i < |bs| => hdr.(body := bs[i]))
          == [hdr.(body := bs[0])] + seq(|bs[1..]|, i requires 0 <= i < |bs[1..]| => hdr.(body := bs[1..][i]));
    }
  }

  // ---------- one frame ----------

  /** A frame handed over goes on the air if and only if header, body and tag fit in 255 bytes and the radio queue takes it.
      It is then remembered, stamped now and with no retry behind it, if and only if it is for one node, asks for an
      acknowledgement, and the node it is for has a route; otherwise the ack buffer is as it was. */
  lemma TransmitOutcome(n: Node, f: Frame)
    ensures var n', g := Transmit(n, f), f.(flags := f.flags % 128);
            var aired := 20 + BodyLen(f.body) + 8 <= 255 && n.io.env.accepts(n.io.offered);
            && Sends(n, n', [f], 0)
            && n'.io.air == n.io.air + (if aired then [g] else [])
            && n'.io.offered == n.io.offered + (if 20 + BodyLen(f.body) + 8 <= 255 then 1 else 0)
            && n'.acks == if aired && f.dest != 0xFFFF_FFFF && (f.flags / 4) % 2 == 1 && f.dest in n.routes
                          then n.acks[f.id := AckEntry(g, n.routes[f.dest].nextHop, n.io.env.clock, 0)]
                          else n.acks
  {
    TransmitSends(n, f);
    hide Sends;
  }

  // ---------- the timer ----------

  /** The entries a timer pass gives up: overdue by the tick count, with three retries behind them. */
  ghost predicate Abandoned(n: Node, id: U32) {
    id in n.acks && (n.io.env.clock - n.acks[id].timestamp) % 0x1_0000_0000 >= 3000 && n.acks[id].attempts >= 3
  }

  /** Those of them that are reported, in the order given: DATA and user messages. */
  ghost function ReportedOf(n: Node, ids: seq<U32>): seq<U32>
    decreases |ids|
  {
    if ids == [] then []
    else
      var id := ids[|ids| - 1];
      ReportedOf(n, ids[..|ids| - 1])
      + if Abandoned(n, id) && (n.acks[id].frame.body.Data? || n.acks[id].frame.body.UserMsg?) then [id] else []
  }

  function Failures(ids: seq<U32>): seq<Note> {
    seq(|ids|, i requires 0 <= i < |ids| => BleAckFailure(ids[i]))
  }

  ghost function Reports(n: Node, ids: seq<U32>, garbled: U32 -> U32): seq<Frame>
    requires forall i | 0 <= i < |ids| :: ids[i] in n.acks
  {
    seq(|ids|, i requires 0 <= i < |ids| =>
          Made(n, i, n.acks[ids[i]].frame.origin, n.acks[ids[i]].frame.origin, Rerr(n.me, n.me, garbled(ids[i]), ids[i])))
  }

  lemma {:induction false} ReportedArePending(n: Node, ids: seq<U32>)
    ensures forall i | 0 <= i < |ReportedOf(n, ids)| :: ReportedOf(n, ids)[i] in n.acks
    decreases |ids|
  {
    if ids != [] {
      ReportedArePending(n, ids[..|ids| - 1]);
    }
  }

  // ---------- the sweep ----------

  ghost function SpentOf(n: Node, ids: seq<U32>): seq<(U32, AckEntry)>
    decreases |ids|
  {
    if ids == [] then []
    else
      var id := ids[|ids| - 1];
      SpentOf(n, ids[..|ids| - 1]) + if Abandoned(n, id) then [(id, n.acks[id])] else []
  }

  /** The sweep itself tells nobody and hands over nothing: it retries on the radio queue or gives up. */
  lemma {:induction false} SweepSpends(n: Node, ids: seq<U32>)
    requires forall i | 0 <= i < |ids| :: ids[i] in n.acks
    requires forall i, j | 0 <= i < j < |ids| :: ids[i] != ids[j]
    ensures var s := Sweep(n, ids);
            && s.expired == SpentOf(n, ids)
            && s.node == n.(acks := s.node.acks, io := n.io.(offered := s.node.io.offered, air := s.node.io.air))
    decreases |ids|
  {
    if ids != [] {
      var k := |ids| - 1;
      SweepSpends(n, ids[..k]);
      SweepFrame(n, ids[..k], ids[k]);
    }
  }

  /** What reporting leaves behind. */
  ghost predicate Reporting(n: Node, n': Node, out: seq<U32>, garbled: U32 -> U32)
    requires forall i | 0 <= i < |out| :: out[i] in n.acks
  {
    && Says(n, n', Failures(out)) && Hands(n, n', Reports(n, out, garbled)) && n'.io.drawn == n.io.drawn + |out|
    && n'.io.env == n.io.env && n'.me == n.me && n'.routes == n.routes && n'.peers == n.peers && KeepsStore(n, n')
  }

  lemma ReportsOne(n: Node, n0: Node, n': Node, out: seq<U32>, id: U32, garbled: U32 -> U32)
    requires (forall i | 0 <= i < |out| :: out[i] in n.acks) && id in n.acks
    requires Reporting(n, n0, out, garbled)
    requires n' == Tell(SendRerr(n0, n0.me, n.acks[id].frame.origin, garbled(id), id), BleAckFailure(id))
    ensures Reporting(n, n', out + [id], garbled)
  {
    hide Originate;
    var origin := n.acks[id].frame.origin;
    OriginateSends(n0, origin, origin, Rerr(n0.me, n0.me, garbled(id), id));
    assert Failures(out + [id]) == Failures(out) + [BleAckFailure(id)];
    assert Reports(n, out + [id], garbled) == Reports(n, out, garbled) + [Made(n0, 0, origin, origin, Rerr(n0.me, n0.me, garbled(id), id))];
  }

  lemma {:induction false} ReportAllReports(n: Node, m: Node, ids: seq<U32>, garbled: U32 -> U32)
    requires m == n.(acks := m.acks, io := n.io.(offered := m.io.offered, air := m.io.air))
    ensures forall i | 0 <= i < |ReportedOf(n, ids)| :: ReportedOf(n, ids)[i] in n.acks
    ensures Reporting(n, ReportAll(m, SpentOf(n, ids), garbled), ReportedOf(n, ids), garbled)
    decreases |ids|
  {
    ReportedArePending(n, ids);
    if ids != [] {
      hide Abandoned, Reporting, SendRerr;
      var front, id := ids[..|ids| - 1], ids[|ids| - 1];
      ReportAllReports(n, m, front, garbled);
      var n0 := ReportAll(m, SpentOf(n, front), garbled);
      assert SpentOf(n, front) + [] == SpentOf(n, front) && ReportedOf(n, front) + [] == ReportedOf(n, front);
      if Abandoned(n, id) {
        var es := SpentOf(n, ids);
        assert es[..|es| - 1] == SpentOf(n, front);
        if n.acks[id].frame.body.Data? || n.acks[id].frame.body.UserMsg? {
          ReportsOne(n, n0, ReportAll(m, es, garbled), ReportedOf(n, front), id, garbled);
        }
      }
    }
  }

  /** A timer pass tells the phones of each DATA packet and user message given up, once, by ascending packet ID, and sends
      the origin of each an error report in the same order. (The destination such a report names is whatever the sealed
      bytes hold.) */
  lemma TimerOutcome(n: Node, garbled: U32 -> U32)
    ensures var n', out := CleanupAcks(n, garbled), ReportedOf(n, Ascending(n.acks.Keys));
            && (forall i | 0 <= i < |out| :: out[i] in n.acks)
            && Says(n, n', Failures(out)) && Hands(n, n', Reports(n, out, garbled))
            && n'.routes == n.routes && n'.peers == n.peers && KeepsStore(n, n')
  {
    hide Sweep, ReportAll, Ascending, ReportedOf, SpentOf;
    var ids := Ascending(n.acks.Keys);
    AscendingIsSorted(n.acks.Keys);
    forall i | 0 <= i < |ids| ensures ids[i] in n.acks {
      assert ids[i] in ids;
    }
    SweepSpends(n, ids);
    ReportAllReports(n, Sweep(n, ids).node, ids, garbled);
  }

  // ---------- retries on the air ----------

  /** The frames a sweep puts on the air again: of each overdue entry with retries left, if its own offer is accepted. */
  ghost function Again(n: Node, ids: seq<U32>): seq<Frame>
    decreases |ids|
  {
    if ids == [] then []
    else
      var id := ids[|ids| - 1];
      Again(n, ids[..|ids| - 1])
      + if id in n.acks && Overdue(n.acks[id], n.io.env.clock) && n.acks[id].attempts < MAX_RETRANS
           && n.io.env.accepts(Offer(n, ids, id)) then [n.acks[id].frame] else []
  }

  lemma {:induction false} SweepAirs(n: Node, ids: seq<U32>)
    requires forall i | 0 <= i < |ids| :: ids[i] in n.acks
    requires forall i, j | 0 <= i < j < |ids| :: ids[i] != ids[j]
    ensures Sweep(n, ids).node.io.air == n.io.air + Again(n, ids)
    decreases |ids|
  {
    hide Overdue;
    if ids != [] {
      var k := |ids| - 1;
      SweepAirs(n, ids[..k]);
      SweepFrame(n, ids[..k], ids[k]);
    }
  }

  /** In a pass over the whole buffer exactly those entries that gain an attempt go on the air again, by ascending packet
      ID and as they were first sent, before any error report. */
  lemma RetriesOnAir(n: Node, garbled: U32 -> U32)
    ensures n.io.air + Again(n, Ascending(n.acks.Keys)) <= CleanupAcks(n, garbled).io.air
    ensures var rest := CleanupAcks(n, garbled).io.air[|n.io.air + Again(n, Ascending(n.acks.Keys))|..];
            forall i | 0 <= i < |rest| :: rest[i].body.Rerr?
  {
    hide Sweep, ReportAll, Ascending, Again;
    var ids := Ascending(n.acks.Keys);
    AscendingIsSorted(n.acks.Keys);
    forall i | 0 <= i < |ids| ensures ids[i] in n.acks {
      assert ids[i] in ids;
    }
    SweepAirs(n, ids);
    ReportsAirErrors(Sweep(n, ids).node, Sweep(n, ids).expired, garbled);
  }

  lemma {:induction false} ReportsAirErrors(n: Node, es: seq<(U32, AckEntry)>, garbled: U32 -> U32)
    ensures var n' := ReportAll(n, es, garbled);
            n.io.air <= n'.io.air && forall i | |n.io.air| <= i < |n'.io.air| :: n'.io.air[i].body.Rerr?
    decreases |es|
  {
    if es != [] {
      var m, e := ReportAll(n, es[..|es| - 1], garbled), es[|es| - 1];
      ReportsAirErrors(n, es[..|es| - 1], garbled);
      TransmitOutcome(Drew(m), Made(m, 0, e.1.frame.origin, e.1.frame.origin, Rerr(m.me, m.me, garbled(e.0), e.0)));
      hide Transmit;
    }
  }
}
