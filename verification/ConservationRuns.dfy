/** Conservation of user messages at every node of every network run. */
module ConservationRuns {
  import opened Packets
  import opened Nodes
  import opened Effects
  import opened Network
  import opened Mail
  import opened Conservation

  // ---------- node IDs in flight are set ----------

  /** The node IDs a frame teaches, other than the one that sent it. */
  predicate Named(f: Frame) {
    && (f.body.Info? || f.body.MoveUser? ==> f.origin != 0)
    && (f.body.Urep? ==> f.body.destNode != 0)
  }

  lemma JustNamed(c: Ctx, e: Frame)
    requires c.me != 0 && Just(c, e) && (c.cause.Received? ==> Named(c.cause.frame))
    ensures Named(e)
  {
  }

  ghost predicate AllNamed(t: Topology, s: Net) {
    Placed(t, s) && Everywhere(s, f => Named(f))
  }

  lemma StepNamed(t: Topology, s: Net, l: Label)
    requires Valid(t) && AllNamed(t, s) && Enabled(s, l)
    ensures AllNamed(t, Step(t, s, l))
  {
    hide Step, Result, Named, Behaves, Just, Remembers, Own;
    StepPlaced(t, s, l);
    var c := if Acts(l) then ActContext(s, l) else Ctx(0, map[], Call, 0, 0);
    if Acts(l) {
      StepShape(t, s, l);
      forall e | Just(c, e) ensures Named(e) {
        JustNamed(c, e);
      }
    }
    StepEverywhere(t, s, l, c, f => Named(f));
  }

  lemma {:induction false} HistoryNamed(t: Topology, ss: seq<Net>, ls: seq<Label>, i: nat)
    requires Valid(t) && IsHistory(t, ss, ls) && i < |ss|
    ensures AllNamed(t, ss[i])
  {
    hide Step, Enabled, IsHistory;
    var _ := HistoryStart(t, ss, ls);
    if i > 0 {
      HistoryNamed(t, ss, ls, i - 1);
      HistoryStep(t, ss, ls, i - 1);
      StepNamed(t, ss[i - 1], ls[i - 1]);
    }
  }

  // ---------- a step as an activation of its node ----------

  ghost function EventOf(s: Net, l: Label): Event
    requires Enabled(s, l) && Acts(l)
  {
    match l
    case Deliver(i, env) => Hear(s.flying[i].frame, env)
    case Invoke(_, call, env) => Ask(call, env)
    case AckTimer(_, env, garbled) => Tick(env, garbled)
  }

  lemma ResultIsAfter(s: Net, l: Label)
    requires Enabled(s, l) && Acts(l)
    ensures Result(s, l) == After(s.nodes[Actor(s, l)], EventOf(s, l))
  {
    hide HandlePacket, Api, CleanupAcks;
  }

  /** What node q takes in at this step. */
  ghost function TakenAt(s: Net, l: Label, q: U32): multiset<PendingUser> {
    if Enabled(s, l) && Acts(l) && Actor(s, l) == q then Taken(s.nodes[q], EventOf(s, l)) else multiset{}
  }

  ghost function TakenBy(ss: seq<Net>, ls: seq<Label>, q: U32, i: nat): multiset<PendingUser>
    requires i <= |ls| < |ss|
  {
    if i == 0 then multiset{} else TakenBy(ss, ls, q, i - 1) + TakenAt(ss[i - 1], ls[i - 1], q)
  }

  lemma StepHeld(t: Topology, s: Net, l: Label, q: U32)
    requires Valid(t) && AllNamed(t, s) && Enabled(s, l) && q in s.nodes && Settled(s.nodes[q])
    requires Acts(l) ==> RandomSet(l.env)
    ensures q in Step(t, s, l).nodes && Settled(Step(t, s, l).nodes[q])
    ensures Held(Step(t, s, l).nodes[q]) == Held(s.nodes[q]) + TakenAt(s, l, q)
  {
    hide Held, Settled, Result, Behaves, After, Taken, Named, Own, Remembers;
    if Acts(l) {
      StepShape(t, s, l);
      if Actor(s, l) == q {
        ResultIsAfter(s, l);
        EventAllowed(t, s, l);
        EventHeld(s.nodes[q], EventOf(s, l));
      }
      hide Step;
    }
  }

  lemma EventAllowed(t: Topology, s: Net, l: Label)
    requires Valid(t) && AllNamed(t, s) && Enabled(s, l) && Acts(l) && RandomSet(l.env)
    ensures Allowed(EventOf(s, l))
  {
    hide RandomSet, Remembers, Own;
    if l.Deliver? {
      var f := s.flying[l.i].frame;
      assert Link(t, f.prev, s.flying[l.i].at) && Named(f);
    }
  }

  /** In every network run whose random IDs are not 0, at every node: the messages taken in so far are exactly
      those waiting for a user's home, those waiting for a route, and those handed over. */
  lemma {:induction false} HistoryHeld(t: Topology, ss: seq<Net>, ls: seq<Label>, q: U32, i: nat)
    requires Valid(t) && IsHistory(t, ss, ls) && i <= |ls| < |ss| && q in t.nbrs
    requires forall j | 0 <= j < |ls| && Acts(ls[j]) :: RandomSet(ls[j].env)
    ensures q in ss[i].nodes && Settled(ss[i].nodes[q])
    ensures Held(ss[i].nodes[q]) == TakenBy(ss, ls, q, i)
  {
    hide Step, Enabled, IsHistory, Held, Settled, TakenAt, RandomSet;
    var env := HistoryStart(t, ss, ls);
    if i == 0 {
      FreshHolds(q, env);
    } else {
      HistoryHeld(t, ss, ls, q, i - 1);
      HistoryNamed(t, ss, ls, i - 1);
      HistoryStep(t, ss, ls, i - 1);
      StepHeld(t, ss[i - 1], ls[i - 1], q);
    }
  }

  lemma FreshHolds(q: U32, env: Env)
    ensures Settled(Fresh(q, env)) && Held(Fresh(q, env)) == multiset{}
  {
  }
}
