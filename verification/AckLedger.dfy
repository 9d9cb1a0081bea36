/** Every acknowledgement outcome and every retransmission is accounted for. */
module AckLedger {
  import opened Packets
  import opened Ordered
  import opened Sessions
  import opened Nodes
  import opened Effects

  lemma HandleAckLedger(n: Node, f: Frame, p: U32)
    requires f.body.Ack? && Ledger(n, p)
    ensures Ledger(HandleAck(n, f), p)
  {
    OutcomesSnoc(n.io.notes, BleAck(f.body.originalPacket), p);
  }

  lemma DispatchLedger(n: Node, f: Frame, p: U32)
    requires Ledger(n, p)
    ensures Ledger(Dispatch(n, f), p)
  {
    if f.body.Ack? {
      HandleAckLedger(n, f, p);
    } else {
      LearnOnlyLearns(n, f);
      DispatchEmits(n, f, p);
      hide Dispatch, Learn;
    }
  }

  /** Receiving any frame, including the implicit acknowledgement. */
  lemma HandlePacketLedger(n: Node, f: Frame, p: U32)
    requires Ledger(n, p)
    ensures Ledger(HandlePacket(n, f), p)
  {
    hide Dispatch;
    if Accepts(n, f) {
      DispatchLedger(n.(seen := n.seen + {f.id}), f, p);
    }
  }

  function CountSpent(es: seq<(U32, AckEntry)>, p: U32): nat
    decreases |es|
  {
    if es == [] then 0 else CountSpent(es[..|es| - 1], p) + if es[|es| - 1].0 == p then 1 else 0
  }

  /** The ledger while expired entries wait to be reported. */
  ghost predicate Owing(n: Node, es: seq<(U32, AckEntry)>, p: U32) {
    && Outcomes(n.io.notes, p) + CountSpent(es, p) + (if p in n.acks then 1 else 0) <= CountAsk(n.io.handed, p)
    && (p in n.acks ==> Asks(n.acks[p].frame, p) && n.acks[p].attempts <= MAX_RETRANS)
    && CountAsk(n.io.air, p) + (if p in n.acks then MAX_RETRANS - n.acks[p].attempts else 0) <= 4 * CountAsk(n.io.handed, p)
  }

  lemma SpentSnoc(es: seq<(U32, AckEntry)>, e: (U32, AckEntry), p: U32)
    ensures CountSpent(es + [e], p) == CountSpent(es, p) + if e.0 == p then 1 else 0
  {
    assert (es + [e])[..|es|] == es;
  }

  lemma SweepOneOwing(n: Node, id: U32, es: seq<(U32, AckEntry)>, p: U32)
    requires id in n.acks && n.acks[id].frame.id == id && Owing(n, es, p)
    ensures Owing(SweepOne(n, id), es + Spent(n, id), p)
  {
    hide CountAsk, Outcomes, CountSpent, AsksAck, Overdue;
    CountSnoc(n.io.air, n.acks[id].frame, p);
    SpentSnoc(es, (id, n.acks[id]), p);
    assert es + [] == es;
  }

  /** Each remembered frame sits under its own packet ID. */
  ghost predicate Keyed(n: Node) {
    forall k | k in n.acks :: n.acks[k].frame.id == k
  }

  lemma {:induction false} SweepOwing(n: Node, ids: seq<U32>, p: U32)
    requires Keyed(n) && Owing(n, [], p)
    ensures Keyed(Sweep(n, ids).node)
    ensures Owing(Sweep(n, ids).node, Sweep(n, ids).expired, p)
    decreases |ids|
  {
    hide Owing, Spent;
    if ids != [] {
      SweepOwing(n, ids[..|ids| - 1], p);
      var s := Sweep(n, ids[..|ids| - 1]);
      if ids[|ids| - 1] in s.node.acks {
        SweepOneOwing(s.node, ids[|ids| - 1], s.expired, p);
      }
    }
  }

  lemma RerrNotCounted(n: Node, origin: U32, dest: U32, id: U32, p: U32)
    ensures var r := SendRerr(n, n.me, origin, dest, id);
            && CountAsk(r.io.handed, p) == CountAsk(n.io.handed, p) && CountAsk(r.io.air, p) == CountAsk(n.io.air, p)
            && r == n.(io := r.io) && r.io.env == n.io.env && r.io.notes == n.io.notes
  {
    hide CountAsk;
    var f := Frame(origin, n.me, origin, Draw(n), 0, 0, Rerr(n.me, n.me, dest, id));
    assert OnAir(f) == f && !AsksAck(f.flags);
    CountSnoc(n.io.handed, f, p);
    CountSnoc(n.io.air, f, p);
  }

  /** Reporting turns each owed entry into at most one outcome. */
  lemma {:induction false} ReportAllOwing(n: Node, es: seq<(U32, AckEntry)>, garbled: U32 -> U32, p: U32)
    ensures var r := ReportAll(n, es, garbled);
            && Outcomes(r.io.notes, p) <= Outcomes(n.io.notes, p) + CountSpent(es, p)
            && CountAsk(r.io.handed, p) == CountAsk(n.io.handed, p) && CountAsk(r.io.air, p) == CountAsk(n.io.air, p)
            && r == n.(io := r.io) && r.io.env == n.io.env
    decreases |es|
  {
    if es != [] {
      var e := es[|es| - 1];
      var m := ReportAll(n, es[..|es| - 1], garbled);
      ReportAllOwing(n, es[..|es| - 1], garbled, p);
      RerrNotCounted(m, e.1.frame.origin, garbled(e.0), e.0, p);
      OutcomesSnoc(m.io.notes, BleAckFailure(e.0), p);
      hide SendRerr;
    }
  }

  /** A cleanup pass keeps the ledger. */
  lemma CleanupLedger(n: Node, garbled: U32 -> U32, p: U32)
    requires Keyed(n) && Ledger(n, p)
    ensures Ledger(CleanupAcks(n, garbled), p)
  {
    var ids := Ascending(n.acks.Keys);
    SweepOwing(n, ids, p);
    var s := Sweep(n, ids);
    ReportAllOwing(s.node, s.expired, garbled, p);
  }
}
