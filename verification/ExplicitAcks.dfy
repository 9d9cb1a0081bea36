/** An explicit acknowledgement reported to a phone is never false: some node
    the packet was addressed to has handled it. */
module ExplicitAcks {
  import opened Packets
  import opened Nodes
  import opened Effects
  import opened Network

  predicate WantsAck(f: Frame) {
    || (f.body.Data? && f.flags == REQ_ACK)
    || (f.body.UserMsg? && (f.flags == REQ_ACK || f.flags == ENC_ACK))
  }

  /** Copy c is node m handling packet p received straight from n, addressed to m (or to all). */
  predicate Handled(c: Copy, m: U32, n: U32, p: U32) {
    && c.at == m && c.frame.id == p && c.frame.prev == n
    && (c.frame.dest == m || c.frame.dest == BROADCAST_ADDR) && WantsAck(c.frame)
  }

  ghost predicate Served(ran: seq<Copy>, m: U32, n: U32, p: U32) {
    exists j :: 0 <= j < |ran| && Handled(ran[j], m, n, p)
  }

  /** An ACK frame was earned by its sender. */
  ghost predicate Earned(ran: seq<Copy>, f: Frame) {
    f.body.Ack? ==> Served(ran, f.prev, f.dest, f.body.originalPacket)
  }

  /** A copy was put on the air by the node it names as previous hop. */
  ghost predicate Sent(s: Net, c: Copy) {
    c.frame.prev in s.nodes && c.frame in s.nodes[c.frame.prev].io.air
  }

  ghost predicate Truthful(s: Net, q: U32)
    requires q in s.nodes
  {
    forall i | 0 <= i < |s.nodes[q].io.notes| && s.nodes[q].io.notes[i].BleAck? ::
      exists m :: Served(s.ran, m, q, s.nodes[q].io.notes[i].id)
  }

  ghost predicate Honest(t: Topology, s: Net) {
    && Placed(t, s)
    && Everywhere(s, f => Earned(s.ran, f))
    && (forall j | 0 <= j < |s.flying| :: Sent(s, s.flying[j]))
    && (forall j | 0 <= j < |s.ran| :: Sent(s, s.ran[j]))
    && (forall q | q in s.nodes :: Truthful(s, q))
  }

  lemma ServedGrows(ran: seq<Copy>, more: seq<Copy>, m: U32, n: U32, p: U32)
    requires Served(ran, m, n, p)
    ensures Served(ran + more, m, n, p)
  {
    var j :| 0 <= j < |ran| && Handled(ran[j], m, n, p);
    assert (ran + more)[j] == ran[j];
  }

  lemma EarnedEverywhere(s: Net, more: seq<Copy>)
    requires Everywhere(s, f => Earned(s.ran, f))
    ensures Everywhere(s, f => Earned(s.ran + more, f))
  {
    hide Served;
    forall f | Earned(s.ran, f) ensures Earned(s.ran + more, f) {
      if f.body.Ack? {
        ServedGrows(s.ran, more, f.prev, f.dest, f.body.originalPacket);
      }
    }
  }

  /** An acknowledgement is only ever sent in answer to a frame being handled. */
  lemma JustEarned(c: Ctx, ran: seq<Copy>, e: Frame)
    requires Just(c, e)
    requires c.cause.Received? ==>
               && (c.cause.frame.dest == BROADCAST_ADDR || c.cause.frame.dest == c.me)
               && |ran| > 0 && ran[|ran| - 1] == Copy(c.me, c.cause.frame)
    ensures Earned(ran, e)
  {
    if e.body.Ack? {
      var f := c.cause.frame;
      assert Answered(c, f, e);
      assert Handled(ran[|ran| - 1], c.me, f.prev, f.id);
    }
  }

  lemma SentGrows(s: Net, s': Net, c: Copy)
    requires Sent(s, c)
    requires s'.nodes.Keys == s.nodes.Keys && forall q | q in s.nodes :: s.nodes[q].io.air <= s'.nodes[q].io.air
    ensures Sent(s', c)
  {
  }

  /** Air logs only grow. */
  lemma AirGrows(t: Topology, s: Net, l: Label)
    requires Placed(t, s) && Enabled(s, l)
    ensures var s' := Step(t, s, l);
            s'.nodes.Keys == s.nodes.Keys && forall q | q in s.nodes :: s.nodes[q].io.air <= s'.nodes[q].io.air
  {
    if Acts(l) {
      StepShape(t, s, l);
      hide Step, Result;
    }
  }

  lemma NewCopySent(t: Topology, s: Net, l: Label, c: Copy)
    requires Placed(t, s) && Enabled(s, l) && Acts(l) && JustAired(Before(s, l), Result(s, l), c.frame)
    ensures Sent(Step(t, s, l), c)
  {
    hide Step, Result, Behaves, Own;
    StepShape(t, s, l);
    AwakeOwn(s.nodes[Actor(s, l)], l.env, Actor(s, l));
    AiredByMe(ActContext(s, l), Before(s, l), Result(s, l), c.frame);
  }

  lemma StepSent(t: Topology, s: Net, l: Label, j: nat)
    requires Honest(t, s) && Enabled(s, l) && j < |Step(t, s, l).flying|
    ensures Sent(Step(t, s, l), Step(t, s, l).flying[j])
  {
    hide Step, Result, Everywhere, Truthful, Sent, JustAired;
    AirGrows(t, s, l);
    StepFlying(t, s, l, j);
    var c := Step(t, s, l).flying[j];
    if c in s.flying {
      SentGrows(s, Step(t, s, l), c);
    } else {
      NewCopySent(t, s, l, c);
    }
  }

  lemma StepRanSent(t: Topology, s: Net, l: Label, j: nat)
    requires Honest(t, s) && Enabled(s, l) && j < |Step(t, s, l).ran|
    ensures Sent(Step(t, s, l), Step(t, s, l).ran[j])
  {
    hide Step, Result, Everywhere, Truthful, Sent;
    AirGrows(t, s, l);
    StepRan(t, s, l);
    if j < |s.ran| {
      SentGrows(s, Step(t, s, l), s.ran[j]);
    } else {
      SentGrows(s, Step(t, s, l), s.flying[l.i]);
    }
  }

  /** A new BLE_ACK comes from an earned ACK frame addressed to this node. */
  lemma NewAckTruthful(t: Topology, s: Net, l: Label, i: nat)
    requires Valid(t) && Honest(t, s) && Enabled(s, l) && Acts(l)
    requires |Before(s, l).io.notes| <= i < |Result(s, l).io.notes| && Result(s, l).io.notes[i].BleAck?
    ensures exists m :: Served(s.ran, m, Actor(s, l), Result(s, l).io.notes[i].id)
  {
    hide Result, Truthful, Step, Own, Behaves;
    StepShape(t, s, l);
    StepSpeaks(s, l);
    var note := Result(s, l).io.notes[i];
    assert Spoken(ActContext(s, l), note);
    var f := s.flying[l.i].frame;
    assert f.body == Ack(note.id) && Earned(s.ran, f);
    var j :| 0 <= j < |s.ran| && Handled(s.ran[j], f.prev, f.dest, note.id);
    assert Sent(s, s.ran[j]);
    assert f.dest in t.nbrs;
    assert f.dest == Actor(s, l);
    assert Served(s.ran, f.prev, Actor(s, l), note.id);
  }

  lemma StepTruthful(t: Topology, s: Net, l: Label, q: U32)
    requires Valid(t) && Honest(t, s) && Enabled(s, l) && q in s.nodes && q in Step(t, s, l).nodes
    ensures Truthful(Step(t, s, l), q)
  {
    hide Step, Result, Everywhere, Served, Sent;
    var s' := Step(t, s, l);
    StepRan(t, s, l);
    StepNotes(t, s, l, q);
    forall i | 0 <= i < |s'.nodes[q].io.notes| && s'.nodes[q].io.notes[i].BleAck?
      ensures exists m :: Served(s'.ran, m, q, s'.nodes[q].io.notes[i].id)
    {
      var p := s'.nodes[q].io.notes[i].id;
      var m;
      if i < |s.nodes[q].io.notes| {
        assert s'.nodes[q].io.notes[i] == s.nodes[q].io.notes[i];
        assert Truthful(s, q);
        m :| Served(s.ran, m, q, p);
      } else {
        NewAckTruthful(t, s, l, i);
        m :| Served(s.ran, m, q, p);
      }
      ServedGrows(s.ran, Ran(s, l), m, q, p);
    }
  }

  lemma StepNotes(t: Topology, s: Net, l: Label, q: U32)
    requires Placed(t, s) && Enabled(s, l) && q in s.nodes
    ensures q in Step(t, s, l).nodes
    ensures s.nodes[q].io.notes <= Step(t, s, l).nodes[q].io.notes
    ensures if Acts(l) && Actor(s, l) == q
            then Step(t, s, l).nodes[q] == Result(s, l) && s.nodes[q].io.notes == Before(s, l).io.notes
            else Step(t, s, l).nodes[q] == s.nodes[q]
  {
    if Acts(l) {
      StepShape(t, s, l);
      StepSpeaks(s, l);
      hide Step, Result;
    }
  }

  lemma StepEarned(t: Topology, s: Net, l: Label)
    requires Honest(t, s) && Enabled(s, l)
    ensures Everywhere(Step(t, s, l), f => Earned(Step(t, s, l).ran, f))
  {
    hide Step, Result, Truthful, Sent, Behaves, Just, Earned, Remembers;
    StepRan(t, s, l);
    EarnedEverywhere(s, Ran(s, l));
    var ran := s.ran + Ran(s, l);
    var c := if Acts(l) then ActContext(s, l) else Ctx(0, map[], Call, 0, 0);
    if Acts(l) {
      StepShape(t, s, l);
      forall e | Just(c, e) ensures Earned(ran, e) {
        JustEarned(c, ran, e);
      }
    }
    StepEverywhere(t, s, l, c, f => Earned(ran, f));
  }

  lemma StepHonest(t: Topology, s: Net, l: Label)
    requires Valid(t) && Honest(t, s) && Enabled(s, l)
    ensures Honest(t, Step(t, s, l))
  {
    hide Step, Truthful, Sent, Earned, Remembers, Own;
    var s' := Step(t, s, l);
    StepPlaced(t, s, l);
    StepEarned(t, s, l);
    forall j | 0 <= j < |s'.flying| ensures Sent(s', s'.flying[j]) {
      StepSent(t, s, l, j);
    }
    forall j | 0 <= j < |s'.ran| ensures Sent(s', s'.ran[j]) {
      StepRanSent(t, s, l, j);
    }
    forall q | q in s'.nodes ensures Truthful(s', q) {
      StepTruthful(t, s, l, q);
    }
  }

  lemma {:induction false} HistoryHonest(t: Topology, ss: seq<Net>, ls: seq<Label>, i: nat)
    requires Valid(t) && IsHistory(t, ss, ls) && i < |ss|
    ensures Honest(t, ss[i])
  {
    hide Step, Enabled, IsHistory;
    var _ := HistoryStart(t, ss, ls);
    if i > 0 {
      HistoryHonest(t, ss, ls, i - 1);
      HistoryStep(t, ss, ls, i - 1);
      StepHonest(t, ss[i - 1], ls[i - 1]);
    }
  }

  /** No false explicit ACK, over every run: if n told its phone BLE_ACK for p, then some node m
      handled a copy of p whose previous hop is n, and n itself put that frame on the air. */
  lemma NoFalseAck(t: Topology, ss: seq<Net>, ls: seq<Label>, i: nat, n: U32, p: U32)
    requires Valid(t) && IsHistory(t, ss, ls) && i < |ss|
    requires n in ss[i].nodes && BleAck(p) in ss[i].nodes[n].io.notes
    ensures exists m, c ::
              c in ss[i].ran && Handled(c, m, n, p) && c.frame in ss[i].nodes[n].io.air
  {
    HistoryHonest(t, ss, ls, i);
    var s := ss[i];
    assert Truthful(s, n);
    var k :| 0 <= k < |s.nodes[n].io.notes| && s.nodes[n].io.notes[k] == BleAck(p);
    var m :| Served(s.ran, m, n, p);
    var j :| 0 <= j < |s.ran| && Handled(s.ran[j], m, n, p);
    assert Sent(s, s.ran[j]);
    assert s.ran[j] in s.ran && Handled(s.ran[j], m, n, p);
  }
}
