/** A BROADCAST_INFO frame never travels more than MAX_HOPS links, in any run. */
module BroadcastRadius {
  import opened Packets
  import opened Nodes
  import opened Effects
  import opened Network

  /** Its counter is the length of a walk from the origin, and stays below the limit. */
  ghost predicate Near(t: Topology, f: Frame) {
    f.body.Info? ==> f.hops < MAX_HOPS && Walk(t, f.origin, f.prev, f.hops)
  }

  ghost predicate NearCopy(t: Topology, c: Copy) {
    Near(t, c.frame) && Link(t, c.frame.prev, c.at)
  }

  ghost predicate AllNear(t: Topology, s: Net) {
    && Placed(t, s)
    && Everywhere(s, f => Near(t, f))
    && (forall j | 0 <= j < |s.ran| :: NearCopy(t, s.ran[j]))
  }

  lemma JustNear(t: Topology, c: Ctx, e: Frame)
    requires Valid(t) && c.me in t.nbrs && Just(c, e)
    requires c.cause.Received? ==> Link(t, c.cause.frame.prev, c.me) && Near(t, c.cause.frame)
    ensures Near(t, e)
  {
    if e.body.Info? && c.cause.Received? && !Started(c, e) {
      var f := c.cause.frame;
      WalkSnoc(t, f.origin, f.prev, c.me, f.hops);
    }
  }

  lemma StepNear(t: Topology, s: Net, l: Label)
    requires Valid(t) && AllNear(t, s) && Enabled(s, l)
    ensures AllNear(t, Step(t, s, l))
  {
    hide Step, Result, Near, Behaves, Just, Remembers, Own;
    StepPlaced(t, s, l);
    StepRan(t, s, l);
    var c := if Acts(l) then ActContext(s, l) else Ctx(0, map[], Call, 0, 0);
    if Acts(l) {
      StepShape(t, s, l);
      forall e | Just(c, e) ensures Near(t, e) {
        JustNear(t, c, e);
      }
    }
    StepEverywhere(t, s, l, c, f => Near(t, f));
    forall j | 0 <= j < |Step(t, s, l).ran| ensures NearCopy(t, Step(t, s, l).ran[j]) {
      if j < |s.ran| {
        assert Step(t, s, l).ran[j] == s.ran[j];
      }
    }
  }

  lemma {:induction false} HistoryNear(t: Topology, ss: seq<Net>, ls: seq<Label>, i: nat)
    requires Valid(t) && IsHistory(t, ss, ls) && i < |ss|
    ensures AllNear(t, ss[i])
  {
    hide Step, Enabled, IsHistory;
    var _ := HistoryStart(t, ss, ls);
    if i > 0 {
      HistoryNear(t, ss, ls, i - 1);
      HistoryStep(t, ss, ls, i - 1);
      StepNear(t, ss[i - 1], ls[i - 1]);
    }
  }

  ghost predicate WithinRadius(t: Topology, a: U32, b: U32) {
    exists k: nat :: 1 <= k <= MAX_HOPS && Walk(t, a, b, k)
  }

  /** Whoever handles a BROADCAST_INFO is joined to its origin by a walk of at most five links,
      and no copy in flight has a counter above four. */
  lemma InfoRadius(t: Topology, ss: seq<Net>, ls: seq<Label>, i: nat)
    requires Valid(t) && IsHistory(t, ss, ls) && i < |ss|
    ensures forall j | 0 <= j < |ss[i].flying| && ss[i].flying[j].frame.body.Info? :: ss[i].flying[j].frame.hops <= 4
    ensures forall j | 0 <= j < |ss[i].ran| && ss[i].ran[j].frame.body.Info? ::
              WithinRadius(t, ss[i].ran[j].frame.origin, ss[i].ran[j].at)
  {
    hide IsHistory;
    HistoryNear(t, ss, ls, i);
    forall j | 0 <= j < |ss[i].ran| && ss[i].ran[j].frame.body.Info?
      ensures WithinRadius(t, ss[i].ran[j].frame.origin, ss[i].ran[j].at)
    {
      var c := ss[i].ran[j];
      assert NearCopy(t, c);
      WalkSnoc(t, c.frame.origin, c.frame.prev, c.at, c.frame.hops);
    }
  }
}
