/** Hop counts are real: every routing entry and every counter in flight is
    backed by a walk of exactly that many radio links, whatever is lost,
    retransmitted or invalidated. */
module HopCounts {
  import opened Packets
  import opened Nodes
  import opened Effects
  import opened Network

  /** An entry at q is backed by a walk through its next hop. */
  ghost predicate EntryBacked(t: Topology, q: U32, d: U32, e: Route) {
    Link(t, q, e.nextHop) && e.hops >= 1 && Walk(t, e.nextHop, d, e.hops - 1)
  }

  ghost predicate RoutesBacked(t: Topology, q: U32, r: Routes) {
    forall d | d in r :: EntryBacked(t, q, d, r[d])
  }

  /** The counters a frame carries, seen from the node that sent it. */
  ghost predicate FrameBacked(t: Topology, f: Frame) {
    match f.body
    case Rreq(_) => Walk(t, f.origin, f.prev, f.hops)
    case Ureq(_) => Walk(t, f.origin, f.prev, f.hops)
    case Info(_, _, _) => Walk(t, f.origin, f.prev, f.hops)
    case Rrep(d, h) => Walk(t, f.prev, d, h)
    case Urep(d, _, _) => Walk(t, f.prev, d, f.hops)
    case Rerr(reporter, broken, _, _) => reporter == broken
    case _ => true
  }

  ghost predicate Backed(t: Topology, s: Net) {
    && Placed(t, s)
    && (forall q | q in s.nodes :: RoutesBacked(t, q, s.nodes[q].routes))
    && Everywhere(s, f => FrameBacked(t, f))
  }

  /** Handling the frame at q makes a hop counter that q learns from wrap around. */
  predicate Wraps(q: U32, f: Frame) {
    match f.body
    case Rreq(_) => f.hops == 255
    case Ureq(_) => f.hops == 255
    case Urep(_, _, _) => f.hops == 255
    case Info(_, _, _) => f.hops == 255 && f.origin != q
    case Rrep(_, h) => h == 255
    case _ => false
  }

  /** The step does not make a node handle such a frame. */
  ghost predicate NoWrap(s: Net, l: Label) {
    l.Deliver? && l.i < |s.flying| && s.flying[l.i].at in s.nodes ==>
      var c := s.flying[l.i];
      !(Accepts(s.nodes[c.at], c.frame) && Wraps(c.at, c.frame))
  }

  lemma UpdatedBacked(t: Topology, q: U32, r: Routes, d: U32, p: U32, k: U8)
    requires Valid(t) && RoutesBacked(t, q, r)
    requires Link(t, q, p) && k < 255 && Walk(t, p, d, k)
    ensures RoutesBacked(t, q, Updated(r, d, p, k + 1))
  {
    assert EntryBacked(t, q, d, Route(p, k + 1));
    hide EntryBacked;
  }

  /** Learning from a backed frame keeps the table backed. */
  lemma LearnedBacked(t: Topology, q: U32, r: Routes, f: Frame)
    requires Valid(t) && RoutesBacked(t, q, r)
    requires Link(t, f.prev, q) && FrameBacked(t, f) && !Wraps(q, f)
    ensures RoutesBacked(t, q, Learned(q, r, f))
  {
    hide EntryBacked, Updated;
    assert Link(t, q, f.prev) && Walk(t, f.prev, f.prev, 0);
    if f.body.Rreq? || f.body.Ureq? || f.body.Info? {
      WalkReverse(t, f.origin, f.prev, f.hops);
    }
    match f.body
    case Rreq(_) =>
      UpdatedBacked(t, q, r, f.origin, f.prev, f.hops);
      UpdatedBacked(t, q, Updated(r, f.origin, f.prev, f.hops + 1), f.prev, f.prev, 0);
    case Rrep(d, h) =>
      UpdatedBacked(t, q, r, d, f.prev, h);
      UpdatedBacked(t, q, Updated(r, d, f.prev, h + 1), f.prev, f.prev, 0);
    case Rerr(_, _, d, _) =>
      assert forall x | x in r - {d} :: x in r && (r - {d})[x] == r[x];
    case Info(_, _, _) =>
      UpdatedBacked(t, q, r, f.prev, f.prev, 0);
      if f.origin != q {
        UpdatedBacked(t, q, Updated(r, f.prev, f.prev, 1), f.origin, f.prev, f.hops);
      }
    case Ureq(_) =>
      UpdatedBacked(t, q, r, f.prev, f.prev, 0);
      UpdatedBacked(t, q, Updated(r, f.prev, f.prev, 1), f.origin, f.prev, f.hops);
    case Urep(d, _, _) =>
      UpdatedBacked(t, q, r, f.prev, f.prev, 0);
      UpdatedBacked(t, q, Updated(r, f.prev, f.prev, 1), d, f.prev, f.hops);
    case Uerr(_, _, _) => UpdatedBacked(t, q, r, f.prev, f.prev, 0);
    case MoveUser(_, _) => UpdatedBacked(t, q, r, f.prev, f.prev, 0);
    case _ =>
  }

  lemma StartedBacked(t: Topology, c: Ctx, e: Frame)
    requires c.me in t.nbrs && Started(c, e) && e.prev == c.me
    ensures FrameBacked(t, e)
  {
  }

  lemma OnwardBacked(t: Topology, c: Ctx, f: Frame, e: Frame)
    requires Valid(t) && Link(t, f.prev, c.me) && FrameBacked(t, f) && !Wraps(c.me, f)
    requires e.prev == c.me && Onward(c, f, e)
    ensures FrameBacked(t, e)
  {
    assert Link(t, c.me, f.prev);
    if f.body.Info? && f.hops == 255 {
      assert Walk(t, c.me, c.me, 0);
    } else if f.body.Rreq? || f.body.Ureq? || f.body.Info? {
      WalkSnoc(t, f.origin, f.prev, c.me, f.hops);
    } else if f.body.Rrep? {
      assert Walk(t, f.prev, f.body.target, f.body.numHops);
      assert Walk(t, c.me, f.body.target, f.body.numHops + 1);
    } else if f.body.Urep? {
      assert Walk(t, f.prev, f.body.destNode, f.hops);
      assert Walk(t, c.me, f.body.destNode, f.hops + 1);
    }
  }

  lemma AnsweredBacked(t: Topology, c: Ctx, f: Frame, e: Frame)
    requires c.me in t.nbrs && RoutesBacked(t, c.me, c.routes)
    requires e.prev == c.me && Answered(c, f, e)
    ensures FrameBacked(t, e)
  {
    if f.body.Rreq? && f.body.target != c.me {
      var d := f.body.target;
      assert EntryBacked(t, c.me, d, c.routes[d]);
      assert Link(t, c.me, c.routes[d].nextHop) && Walk(t, c.routes[d].nextHop, d, c.routes[d].hops - 1);
      assert Walk(t, c.me, d, c.routes[d].hops);
    }
  }

  lemma JustBacked(t: Topology, c: Ctx, e: Frame)
    requires Valid(t) && c.me in t.nbrs && RoutesBacked(t, c.me, c.routes) && Just(c, e)
    requires c.cause.Received? ==>
               Link(t, c.cause.frame.prev, c.me) && FrameBacked(t, c.cause.frame) && !Wraps(c.me, c.cause.frame)
    ensures FrameBacked(t, e)
  {
    hide RoutesBacked, FrameBacked, Started, Onward, Answered;
    match c.cause
    case Call => StartedBacked(t, c, e);
    case Received(f) =>
      if Started(c, e) {
        StartedBacked(t, c, e);
      } else if Onward(c, f, e) {
        OnwardBacked(t, c, f, e);
      } else {
        AnsweredBacked(t, c, f, e);
      }
    case Expiry => RerrBacked(t, e);
  }

  lemma RerrBacked(t: Topology, e: Frame)
    requires e.body.Rerr? && e.body.reporter == e.body.broken
    ensures FrameBacked(t, e)
  {
  }

  /** The table the acting node sends by is backed. */
  lemma ActRoutesBacked(t: Topology, s: Net, l: Label)
    requires Valid(t) && Backed(t, s) && Enabled(s, l) && Acts(l) && NoWrap(s, l)
    ensures var c := ActContext(s, l);
            && c.me == Actor(s, l) && RoutesBacked(t, c.me, c.routes)
            && (c.cause.Received? ==>
                  Link(t, c.cause.frame.prev, c.me) && FrameBacked(t, c.cause.frame) && !Wraps(c.me, c.cause.frame))
  {
    hide RoutesBacked, FrameBacked, Learned, Remembers;
    if l.Deliver? && Accepts(Before(s, l), s.flying[l.i].frame) {
      LearnedBacked(t, Actor(s, l), s.nodes[Actor(s, l)].routes, s.flying[l.i].frame);
    }
  }

  lemma StepBacked(t: Topology, s: Net, l: Label)
    requires Valid(t) && Backed(t, s) && Enabled(s, l) && NoWrap(s, l)
    ensures Backed(t, Step(t, s, l))
  {
    hide RoutesBacked, FrameBacked, Behaves, Result, Just, Remembers, Own;
    StepPlaced(t, s, l);
    var c := if Acts(l) then ActContext(s, l) else Ctx(0, map[], Call, 0, 0);
    if Acts(l) {
      ActRoutesBacked(t, s, l);
      StepShape(t, s, l);
      forall e | Just(c, e) ensures FrameBacked(t, e) {
        JustBacked(t, c, e);
      }
      BehavesRoutes(c, Before(s, l), Result(s, l));
    }
    StepEverywhere(t, s, l, c, f => FrameBacked(t, f));
  }

  lemma BehavesRoutes(c: Ctx, n: Node, n': Node)
    requires Behaves(c, n, n')
    ensures n'.routes == c.routes
  {
  }

  /** Hop-count soundness over all runs. */
  lemma {:induction false} HopCountsAreWalks(t: Topology, ss: seq<Net>, ls: seq<Label>, i: nat)
    requires Valid(t) && IsHistory(t, ss, ls) && i < |ss|
    requires forall j | 0 <= j < |ls| :: NoWrap(ss[j], ls[j])
    ensures Backed(t, ss[i])
  {
    hide Step, Enabled, IsHistory, NoWrap;
    var _ := HistoryStart(t, ss, ls);
    if i > 0 {
      HopCountsAreWalks(t, ss, ls, i - 1);
      HistoryStep(t, ss, ls, i - 1);
      StepBacked(t, ss[i - 1], ls[i - 1]);
    }
  }

  /** So an entry never undercuts the graph distance: a walk of its length exists. */
  lemma EntryIsWalk(t: Topology, ss: seq<Net>, ls: seq<Label>, i: nat, q: U32, d: U32)
    requires Valid(t) && IsHistory(t, ss, ls) && i < |ss|
    requires forall j | 0 <= j < |ls| :: NoWrap(ss[j], ls[j])
    requires q in ss[i].nodes && d in ss[i].nodes[q].routes
    ensures var e := ss[i].nodes[q].routes[d]; e.hops >= 1 && Link(t, q, e.nextHop) && Walk(t, q, d, e.hops)
  {
    hide IsHistory, NoWrap, Valid, Backed, Link, Walk;
    HopCountsAreWalks(t, ss, ls, i);
    BackedEntry(t, ss[i], q, d);
  }

  lemma BackedEntry(t: Topology, s: Net, q: U32, d: U32)
    requires Backed(t, s) && q in s.nodes && d in s.nodes[q].routes
    ensures var e := s.nodes[q].routes[d]; e.hops >= 1 && Link(t, q, e.nextHop) && Walk(t, q, d, e.hops)
  {
    hide FrameBacked, Remembers, Own;
    var e := s.nodes[q].routes[d];
    assert EntryBacked(t, q, d, e);
    assert Link(t, q, e.nextHop) && Walk(t, e.nextHop, d, e.hops - 1);
  }

  // ---------- exactly when a counter goes wrong ----------

  /** Learning from a backed frame keeps the table backed if and only if no counter wraps. */
  lemma LearnedBackedIff(t: Topology, q: U32, r: Routes, f: Frame)
    requires Valid(t) && RoutesBacked(t, q, r) && Link(t, f.prev, q) && FrameBacked(t, f)
    ensures RoutesBacked(t, q, Learned(q, r, f)) <==> !Wraps(q, f)
  {
    if Wraps(q, f) {
      var d := WrappedEntry(t, q, r, f);
      assert !EntryBacked(t, q, d, Learned(q, r, f)[d]);
    } else {
      LearnedBacked(t, q, r, f);
    }
  }

  /** A counter of 255 wraps: the route learned from it claims no hop at all. */
  lemma WrappedEntry(t: Topology, q: U32, r: Routes, f: Frame) returns (d: U32)
    requires RoutesBacked(t, q, r) && Wraps(q, f)
    ensures d in Learned(q, r, f) && Learned(q, r, f)[d].hops == 0
  {
    d := if f.body.Rrep? then f.body.target else if f.body.Urep? then f.body.destNode else f.origin;
    assert d in r ==> EntryBacked(t, q, d, r[d]);
    hide EntryBacked, Link;
  }

  /** A step keeps the network backed if and only if it does not make a node handle a frame whose
      counter wraps there. */
  lemma StepBackedIff(t: Topology, s: Net, l: Label)
    requires Valid(t) && Backed(t, s) && Enabled(s, l)
    ensures Backed(t, Step(t, s, l)) <==> NoWrap(s, l)
  {
    if NoWrap(s, l) {
      StepBacked(t, s, l);
    } else {
      hide RoutesBacked, FrameBacked, Behaves, Result, Remembers, Own, Learned;
      StepShape(t, s, l);
      BehavesRoutes(ActContext(s, l), Before(s, l), Result(s, l));
      LearnedBackedIff(t, Actor(s, l), s.nodes[Actor(s, l)].routes, s.flying[l.i].frame);
    }
  }

  /** The limit is real: a counter of 255 wraps to 0, and the route learned from it claims no hop at all. */
  lemma WrapBreaksCount(t: Topology, q: U32, f: Frame)
    requires f.body.Rreq? && f.hops == 255 && f.origin != f.prev
    ensures Learned(q, map[], f)[f.origin].hops == 0 && !RoutesBacked(t, q, Learned(q, map[], f))
  {
    assert !EntryBacked(t, q, f.origin, Learned(q, map[], f)[f.origin]);
  }
}
