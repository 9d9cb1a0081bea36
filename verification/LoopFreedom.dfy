/** Routes lead to their destination with strictly falling hop counts, exactly as
    long as no removal takes away a route that something still counts on. In runs
    where no remembered frame runs out of retries, unicast frames moreover never
    meet a dead end, and no RERR is ever sent. */
module LoopFreedom {
  import Ordered
  import opened Packets
  import opened Nodes
  import opened Effects
  import opened Network
  import opened HopCounts

  /** All routing tables of the network. */
  type Tables = map<U32, Routes>

  ghost function TablesOf(s: Net): Tables {
    map q | q in s.nodes :: s.nodes[q].routes
  }

  /** p is d, or routes to it in at most k hops. */
  predicate Knows(tab: Tables, p: U32, d: U32, k: int) {
    p == d || (p in tab && d in tab[p] && tab[p][d].hops <= k)
  }

  /** q is the target or has a route to it. */
  predicate Leads(tab: Tables, q: U32, target: U32) {
    q == target || (q in tab && target in tab[q])
  }

  ghost predicate Descending(tab: Tables) {
    forall q, d | q in tab && d in tab[q] ::
      tab[q][d].hops >= 1 && Knows(tab, tab[q][d].nextHop, d, tab[q][d].hops - 1)
  }

  /** The sender has the route it speaks of. */
  predicate TellsTrue(tab: Tables, f: Frame) {
    LessonOf(f).Lesson? ==> Knows(tab, f.prev, LessonOf(f).node, LessonOf(f).hops)
  }

  /** What a frame in flight promises about the tables. */
  predicate Promises(tab: Tables, f: Frame) {
    TellsTrue(tab, f) &&
    match f.body
    case Rrep(_, _) => Leads(tab, f.dest, f.origin)
    case Urep(_, _, _) => Leads(tab, f.dest, f.origin)
    case Data(target, _) =>
      if target == BROADCAST_ADDR then f.dest == BROADCAST_ADDR else Leads(tab, f.dest, target)
    case UserMsg(_, _, target, _) => target != BROADCAST_ADDR && Leads(tab, f.dest, target)
    case MoveUser(_, target) => target != BROADCAST_ADDR && Leads(tab, f.dest, target)
    case Rerr(_, _, _, _) => false
    case _ => true
  }

  ghost predicate Calm(t: Topology, s: Net) {
    Backed(t, s) && Descending(TablesOf(s)) && Everywhere(s, f => Promises(TablesOf(s), f))
  }

  /** No acknowledgement is still outstanding after the last retry. */
  ghost predicate NoExpiry(s: Net, l: Label) {
    l.AckTimer? && l.q in s.nodes ==>
      forall k | k in s.nodes[l.q].acks :: !Exhausted(s.nodes[l.q].acks[k], l.env.clock)
  }

  predicate Exhausted(e: AckEntry, now: U32) {
    Overdue(e, now) && e.attempts >= MAX_RETRANS
  }

  // ---------- tables only improve ----------

  ghost predicate Improves(tab: Tables, tab': Tables) {
    forall q, d | q in tab && d in tab[q] :: q in tab' && d in tab'[q] && tab'[q][d].hops <= tab[q][d].hops
  }

  lemma KnowsImproves(tab: Tables, tab': Tables, p: U32, d: U32, k: int)
    requires Improves(tab, tab') && Knows(tab, p, d, k)
    ensures Knows(tab', p, d, k)
  {
  }

  lemma PromisesImprove(tab: Tables, tab': Tables, f: Frame)
    requires Improves(tab, tab') && Promises(tab, f)
    ensures Promises(tab', f)
  {
  }

  lemma PromisedTells(tab: Tables, f: Frame)
    requires Promises(tab, f)
    ensures TellsTrue(tab, f) && !f.body.Rerr?
  {
  }

  lemma TellsImproves(tab: Tables, tab': Tables, f: Frame)
    requires Improves(tab, tab') && TellsTrue(tab, f)
    ensures TellsTrue(tab', f)
  {
  }

  /** The replace-only-if-shorter update, at a node p does not name itself. */
  lemma UpdatedDescending(tab: Tables, q: U32, d: U32, p: U32, k: U8)
    requires Descending(tab) && q in tab && k < 255 && Knows(tab, p, d, k)
    ensures var tab' := tab[q := Updated(tab[q], d, p, k + 1)];
            Descending(tab') && Improves(tab, tab') && Knows(tab', q, d, k + 1)
  {
    var tab' := tab[q := Updated(tab[q], d, p, k + 1)];
    assert Improves(tab, tab');
    forall x, y | x in tab' && y in tab'[x]
      ensures tab'[x][y].hops >= 1 && Knows(tab', tab'[x][y].nextHop, y, tab'[x][y].hops - 1)
    {
      if x in tab && y in tab[x] && tab'[x][y] == tab[x][y] {
        KnowsImproves(tab, tab', tab[x][y].nextHop, y, tab[x][y].hops - 1);
      } else {
        KnowsImproves(tab, tab', p, d, k);
      }
    }
  }

  /** What a node knows of a frame's subject once it has learned from it. */
  predicate Subject(tab: Tables, q: U32, f: Frame) {
    LessonOf(f).Lesson? ==> Knows(tab, q, LessonOf(f).node, LessonOf(f).hops + 1)
  }

  lemma TwoUpdates(tab: Tables, q: U32, d1: U32, p1: U32, k1: U8, d2: U32, p2: U32, k2: U8)
    requires Descending(tab) && q in tab && k1 < 255 && k2 < 255
    requires Knows(tab, p1, d1, k1) && Knows(tab, p2, d2, k2)
    ensures var tab' := tab[q := Updated(Updated(tab[q], d1, p1, k1 + 1), d2, p2, k2 + 1)];
            Descending(tab') && Improves(tab, tab') && Knows(tab', q, d1, k1 + 1) && Knows(tab', q, d2, k2 + 1)
  {
    hide Descending, Updated;
    UpdatedDescending(tab, q, d1, p1, k1);
    var mid := tab[q := Updated(tab[q], d1, p1, k1 + 1)];
    KnowsImproves(tab, mid, p2, d2, k2);
    UpdatedDescending(mid, q, d2, p2, k2);
    var tab' := mid[q := Updated(mid[q], d2, p2, k2 + 1)];
    assert tab' == tab[q := Updated(Updated(tab[q], d1, p1, k1 + 1), d2, p2, k2 + 1)];
    KnowsImproves(mid, tab', q, d1, k1 + 1);
    ImprovesTrans(tab, mid, tab');
  }

  lemma ImprovesTrans(a: Tables, b: Tables, c: Tables)
    requires Improves(a, b) && Improves(b, c)
    ensures Improves(a, c)
  {
  }

  lemma LearnedDescending(tab: Tables, q: U32, f: Frame)
    requires Descending(tab) && q in tab && TellsTrue(tab, f) && !f.body.Rerr? && !Wraps(q, f)
    ensures var tab' := tab[q := Learned(q, tab[q], f)];
            Descending(tab') && Improves(tab, tab') && Subject(tab', q, f)
  {
    hide Descending, Updated, Improves;
    var r := tab[q];
    match f.body
    case Rreq(_) => TwoUpdates(tab, q, f.origin, f.prev, f.hops, f.prev, f.prev, 0);
    case Rrep(d, h) => TwoUpdates(tab, q, d, f.prev, h, f.prev, f.prev, 0);
    case Info(_, _, _) =>
      if f.origin != q {
        TwoUpdates(tab, q, f.prev, f.prev, 0, f.origin, f.prev, f.hops);
      } else {
        UpdatedDescending(tab, q, f.prev, f.prev, 0);
      }
    case Ureq(_) => TwoUpdates(tab, q, f.prev, f.prev, 0, f.origin, f.prev, f.hops);
    case Urep(d, _, _) => TwoUpdates(tab, q, f.prev, f.prev, 0, d, f.prev, f.hops);
    case Uerr(_, _, _) => UpdatedDescending(tab, q, f.prev, f.prev, 0);
    case MoveUser(_, _) => UpdatedDescending(tab, q, f.prev, f.prev, 0);
    case _ => SameTables(tab, q);
  }

  lemma SameTables(tab: Tables, q: U32)
    requires q in tab
    ensures tab[q := tab[q]] == tab && Improves(tab, tab)
  {
    ImprovesRefl(tab);
  }

  lemma ImprovesRefl(tab: Tables)
    ensures Improves(tab, tab)
  {
  }

  // ---------- frames keep their promises ----------

  lemma TowardLeads(tab: Tables, c: Ctx, target: U32, e: Frame)
    requires Descending(tab) && c.me in tab && tab[c.me] == c.routes && Toward(c, target, e)
    ensures Leads(tab, e.dest, target)
  {
  }

  lemma StartedPromises(tab: Tables, c: Ctx, e: Frame)
    requires Descending(tab) && c.me in tab && tab[c.me] == c.routes && BROADCAST_ADDR !in c.routes
    requires Started(c, e) && e.prev == c.me
    ensures Promises(tab, e)
  {
    hide Descending;
    match e.body
    case Data(target, _) =>
      if Toward(c, target, e) {
        TowardLeads(tab, c, target, e);
      }
    case UserMsg(_, _, target, _) => TowardLeads(tab, c, target, e);
    case MoveUser(_, target) => TowardLeads(tab, c, target, e);
    case _ =>
  }

  lemma OnwardPromises(tab: Tables, c: Ctx, f: Frame, e: Frame)
    requires Descending(tab) && c.me in tab && tab[c.me] == c.routes
    requires Promises(tab, f) && Subject(tab, c.me, f) && !Wraps(c.me, f)
    requires Onward(c, f, e) && e.prev == c.me
    ensures Promises(tab, e)
  {
    hide Descending;
    match f.body
    case Rrep(_, _) => TowardLeads(tab, c, f.origin, e);
    case Urep(_, _, _) => TowardLeads(tab, c, f.origin, e);
    case Data(target, _) =>
      if target != BROADCAST_ADDR {
        TowardLeads(tab, c, target, e);
      }
    case UserMsg(_, _, target, _) => TowardLeads(tab, c, target, e);
    case MoveUser(_, target) => TowardLeads(tab, c, target, e);
    case _ =>
  }

  /** The no-route branch is unreachable, and every answer keeps its promise. */
  lemma AnsweredPromises(tab: Tables, c: Ctx, f: Frame, e: Frame)
    requires c.me in tab && tab[c.me] == c.routes && BROADCAST_ADDR !in tab
    requires Promises(tab, f) && (f.dest == BROADCAST_ADDR || f.dest == c.me)
    requires Answered(c, f, e) && e.prev == c.me
    ensures Promises(tab, e)
  {
  }

  // ---------- one step ----------

  lemma SweepQuiet(n: Node, ids: seq<U32>)
    requires forall k | k in n.acks :: !Exhausted(n.acks[k], n.io.env.clock)
    ensures var s := Sweep(n, ids);
            s.expired == [] && s.node.io.env == n.io.env
            && forall k | k in s.node.acks :: !Exhausted(s.node.acks[k], n.io.env.clock)
    decreases |ids|
  {
    if ids != [] {
      SweepQuiet(n, ids[..|ids| - 1]);
    }
  }

  /** The context a calm step runs in: a timer pass reports nothing. */
  ghost function CalmContext(s: Net, l: Label): Ctx
    requires Enabled(s, l)
  {
    if !Acts(l) then Ctx(0, map[], Call, 0, 0)
    else if l.AckTimer? then ActContext(s, l).(cause := Call)
    else ActContext(s, l)
  }

  lemma CalmBehaves(t: Topology, s: Net, l: Label)
    requires Placed(t, s) && Enabled(s, l) && Acts(l) && NoExpiry(s, l)
    ensures Behaves(CalmContext(s, l), Before(s, l), Result(s, l))
  {
    hide Behaves, Api, HandlePacket, Sweep, Ordered.Ascending;
    StepShape(t, s, l);
    if l.AckTimer? {
      var n := Before(s, l);
      var ids := Ordered.Ascending(n.acks.Keys);
      SweepQuiet(n, ids);
      SweepBehaves(CalmContext(s, l), n, ids);
    }
  }

  lemma TablesStep(t: Topology, s: Net, l: Label)
    requires Placed(t, s) && Enabled(s, l) && Acts(l)
    ensures TablesOf(Step(t, s, l)) == TablesOf(s)[Actor(s, l) := Result(s, l).routes]
  {
    hide Behaves, Result;
    StepShape(t, s, l);
  }

  lemma CalmLearned(t: Topology, s: Net, l: Label)
    requires Valid(t) && Calm(t, s) && Enabled(s, l) && Acts(l) && NoWrap(s, l)
    ensures var c, tab' := CalmContext(s, l), TablesOf(s)[Actor(s, l) := CalmContext(s, l).routes];
            && c.me == Actor(s, l) && !c.cause.Expiry?
            && Descending(tab') && Improves(TablesOf(s), tab')
            && (c.cause.Received? ==>
                  && Promises(tab', c.cause.frame) && Subject(tab', c.me, c.cause.frame) && !Wraps(c.me, c.cause.frame)
                  && (c.cause.frame.dest == BROADCAST_ADDR || c.cause.frame.dest == c.me))
  {
    hide Descending, Promises, Improves, Learned, Remembers, RoutesBacked, FrameBacked, Subject;
    var q, tab := Actor(s, l), TablesOf(s);
    var c := CalmContext(s, l);
    if c.cause.Received? {
      PromisedTells(tab, c.cause.frame);
      LearnedDescending(tab, q, c.cause.frame);
      PromisesImprove(tab, tab[q := c.routes], c.cause.frame);
    } else {
      SameTables(tab, q);
    }
  }

  lemma CalmJust(t: Topology, tab: Tables, c: Ctx, e: Frame)
    requires Descending(tab) && c.me in tab && tab[c.me] == c.routes && BROADCAST_ADDR !in tab && BROADCAST_ADDR !in c.routes
    requires !c.cause.Expiry?
    requires c.cause.Received? ==>
               && Promises(tab, c.cause.frame) && Subject(tab, c.me, c.cause.frame) && !Wraps(c.me, c.cause.frame)
               && (c.cause.frame.dest == BROADCAST_ADDR || c.cause.frame.dest == c.me)
    requires Just(c, e)
    ensures Promises(tab, e)
  {
    hide Descending, Promises, Started, Onward, Answered, Subject;
    if Started(c, e) {
      StartedPromises(tab, c, e);
    } else if Onward(c, c.cause.frame, e) {
      OnwardPromises(tab, c, c.cause.frame, e);
    } else {
      AnsweredPromises(tab, c, c.cause.frame, e);
    }
  }

  lemma NoBroadcastRoute(t: Topology, q: U32, r: Routes)
    requires Valid(t) && RoutesBacked(t, q, r)
    ensures BROADCAST_ADDR !in r
  {
    if BROADCAST_ADDR in r {
      var e := r[BROADCAST_ADDR];
      assert EntryBacked(t, q, BROADCAST_ADDR, e);
      WalkEndsInside(t, e.nextHop, BROADCAST_ADDR, e.hops - 1);
    }
  }

  lemma PromisedEverywhere(s: Net, tab: Tables, tab': Tables)
    requires Improves(tab, tab') && Everywhere(s, f => Promises(tab, f))
    ensures Everywhere(s, f => Promises(tab', f))
  {
    hide Promises, Improves;
    forall f | Promises(tab, f) ensures Promises(tab', f) {
      PromisesImprove(tab, tab', f);
    }
  }

  lemma StepCalm(t: Topology, s: Net, l: Label)
    requires Valid(t) && Calm(t, s) && Enabled(s, l) && NoWrap(s, l) && NoExpiry(s, l)
    ensures Calm(t, Step(t, s, l)) && Improves(TablesOf(s), TablesOf(Step(t, s, l)))
  {
    StepBacked(t, s, l);
    if Acts(l) {
      ActCalm(t, s, l);
    } else {
      ImprovesRefl(TablesOf(s));
      LoseCalm(t, s, l);
    }
  }

  lemma LoseCalm(t: Topology, s: Net, l: Label)
    requires Calm(t, s) && Enabled(s, l) && l.Lose? && Backed(t, Step(t, s, l))
    ensures Calm(t, Step(t, s, l)) && TablesOf(Step(t, s, l)) == TablesOf(s)
  {
    hide Promises, Descending, Backed;
    assert Placed(t, s) by {
      BackedPlaced(t, s);
    }
    StepEverywhere(t, s, l, CalmContext(s, l), f => Promises(TablesOf(s), f));
  }

  lemma BackedPlaced(t: Topology, s: Net)
    requires Backed(t, s)
    ensures Placed(t, s)
  {
  }

  lemma ActCalm(t: Topology, s: Net, l: Label)
    requires Valid(t) && Calm(t, s) && Enabled(s, l) && Acts(l) && NoWrap(s, l) && NoExpiry(s, l)
    requires Backed(t, Step(t, s, l))
    ensures Calm(t, Step(t, s, l)) && Improves(TablesOf(s), TablesOf(Step(t, s, l)))
  {
    hide Promises, Descending, Improves, Behaves, Result, Subject, Just, RoutesBacked, FrameBacked, Remembers, Own;
    var c, q, s' := CalmContext(s, l), Actor(s, l), Step(t, s, l);
    CalmBehaves(t, s, l);
    BehavesRoutes(c, Before(s, l), Result(s, l));
    TablesStep(t, s, l);
    CalmLearned(t, s, l);
    var tab' := TablesOf(s');
    NoBroadcastRoute(t, q, s'.nodes[q].routes);
    forall e | Just(c, e) ensures Promises(tab', e) {
      CalmJust(t, tab', c, e);
    }
    PromisedEverywhere(s, TablesOf(s), tab');
    StepEverywhere(t, s, l, c, f => Promises(tab', f));
  }

  /** A run from empty tables in which no counter wraps and no retry budget runs out. */
  ghost predicate CalmHistory(t: Topology, ss: seq<Net>, ls: seq<Label>) {
    IsHistory(t, ss, ls) && forall j | 0 <= j < |ls| :: NoWrap(ss[j], ls[j]) && NoExpiry(ss[j], ls[j])
  }

  /** Every state of a calm run is calm. */
  lemma {:induction false} CalmRuns(t: Topology, ss: seq<Net>, ls: seq<Label>, i: nat)
    requires Valid(t) && CalmHistory(t, ss, ls) && i < |ss|
    ensures Calm(t, ss[i])
  {
    hide Step, Enabled, IsHistory, NoExpiry, NoWrap;
    var _ := HistoryStart(t, ss, ls);
    if i > 0 {
      CalmRuns(t, ss, ls, i - 1);
      HistoryStep(t, ss, ls, i - 1);
      StepCalm(t, ss[i - 1], ls[i - 1]);
    }
  }

  // ---------- the theorems ----------

  /** Following next hops from q arrives at d within k hops. */
  predicate Arrives(tab: Tables, q: U32, d: U32, k: nat)
    decreases k
  {
    q == d || (k > 0 && q in tab && d in tab[q] && Arrives(tab, tab[q][d].nextHop, d, k - 1))
  }

  lemma {:induction false} DescendingArrives(tab: Tables, q: U32, d: U32, k: nat)
    requires Descending(tab) && Knows(tab, q, d, k)
    ensures Arrives(tab, q, d, k)
    decreases k
  {
    if q != d {
      DescendingArrives(tab, tab[q][d].nextHop, d, k - 1);
    }
  }

  /** No dead ends, and no RERR in flight: every unicast frame on its way to the
      node it is addressed to finds that node able to forward it. */
  lemma NoDeadEnds(t: Topology, ss: seq<Net>, ls: seq<Label>, i: nat, j: nat)
    requires Valid(t) && CalmHistory(t, ss, ls) && i < |ss| && j < |ss[i].flying|
    ensures var f := ss[i].flying[j].frame;
            && !f.body.Rerr?
            && (f.body.Data? && f.body.finalDest != BROADCAST_ADDR ==> Leads(TablesOf(ss[i]), f.dest, f.body.finalDest))
            && (f.body.UserMsg? ==> Leads(TablesOf(ss[i]), f.dest, f.body.toNode))
            && (f.body.MoveUser? ==> Leads(TablesOf(ss[i]), f.dest, f.body.oldNode))
            && (f.body.Rrep? || f.body.Urep? ==> Leads(TablesOf(ss[i]), f.dest, f.origin))
  {
    hide CalmHistory, Calm, Valid, Leads, Knows, TablesOf;
    CalmRuns(t, ss, ls, i);
    FlyingPromises(t, ss[i], j);
  }

  lemma FlyingPromises(t: Topology, s: Net, j: nat)
    requires Calm(t, s) && j < |s.flying|
    ensures Promises(TablesOf(s), s.flying[j].frame)
  {
    hide Promises, Remembers, Backed, Descending;
  }

  /** No RERR is ever put on the air in a calm run. */
  lemma NoRerrSent(t: Topology, ss: seq<Net>, ls: seq<Label>, i: nat, q: U32, j: nat)
    requires Valid(t) && CalmHistory(t, ss, ls) && i < |ss|
    requires q in ss[i].nodes && j < |ss[i].nodes[q].io.air|
    ensures !ss[i].nodes[q].io.air[j].body.Rerr?
  {
    CalmRuns(t, ss, ls, i);
    hide CalmHistory;
    assert Remembers(ss[i].nodes[q], f => Promises(TablesOf(ss[i]), f));
    assert Promises(TablesOf(ss[i]), ss[i].nodes[q].io.air[j]);
  }

  // ---------- removals: exactly when the order of hop counts survives ----------

  /** The step makes node q handle an error report that takes away its route to some node d other than itself. */
  ghost predicate TakesRoute(s: Net, l: Label) {
    && l.Deliver? && l.i < |s.flying| && s.flying[l.i].at in s.nodes
    && var q, f := s.flying[l.i].at, s.flying[l.i].frame;
       && f.body.Rerr? && Accepts(s.nodes[q], f)
       && f.body.originalDest != q && f.body.originalDest in s.nodes[q].routes
  }

  /** Some node routes d through q. */
  ghost predicate LeansOn(tab: Tables, q: U32, d: U32) {
    exists p :: p in tab && d in tab[p] && tab[p][d].nextHop == q
  }

  /** The route taken away is one through which another node still routes. */
  ghost predicate StrandsEntry(s: Net, l: Label) {
    TakesRoute(s, l) && LeansOn(TablesOf(s), s.flying[l.i].at, s.flying[l.i].frame.body.originalDest)
  }

  /** P holds of every frame in flight or remembered until acknowledged. */
  ghost predicate Carried(s: Net, P: Frame -> bool) {
    && (forall i | 0 <= i < |s.flying| :: P(s.flying[i].frame))
    && (forall q | q in s.nodes :: forall k | k in s.nodes[q].acks :: P(s.nodes[q].acks[k].frame))
  }

  predicate SpeaksOf(f: Frame, q: U32, d: U32) {
    f.prev == q && LessonOf(f).Lesson? && LessonOf(f).node == d
  }

  /** The route taken away is one that a frame in flight or remembered still tells of. */
  ghost predicate StrandsFrame(s: Net, l: Label) {
    TakesRoute(s, l) && !Carried(s, f => !SpeaksOf(f, s.flying[l.i].at, s.flying[l.i].frame.body.originalDest))
  }

  /** Hop counts are walks, they fall along next hops, and what frames still to be handled say of their sender is true. */
  ghost predicate Sure(t: Topology, s: Net) {
    Backed(t, s) && Descending(TablesOf(s)) && Carried(s, f => TellsTrue(TablesOf(s), f))
  }

  /** The table of the acting node after the step. */
  lemma ActTables(t: Topology, s: Net, l: Label)
    requires Valid(t) && Backed(t, s) && Enabled(s, l) && Acts(l)
    ensures TablesOf(Step(t, s, l)) == TablesOf(s)[Actor(s, l) := ActContext(s, l).routes]
    ensures ActContext(s, l).me == Actor(s, l)
  {
    hide Behaves, Result, RoutesBacked, FrameBacked, Remembers, Own, Learned;
    TablesStep(t, s, l);
    StepShape(t, s, l);
    BehavesRoutes(ActContext(s, l), Before(s, l), Result(s, l));
  }

  /** The step makes a node learn from the frame. */
  ghost predicate Teaches(s: Net, l: Label) {
    l.Deliver? && l.i < |s.flying| && s.flying[l.i].at in s.nodes && Accepts(s.nodes[s.flying[l.i].at], s.flying[l.i].frame)
  }

  lemma TaughtRoutes(s: Net, l: Label)
    requires Enabled(s, l) && Acts(l) && Own(s.nodes[Actor(s, l)], Actor(s, l))
    ensures var q, c := Actor(s, l), ActContext(s, l);
            c.routes == if Teaches(s, l) then Learned(q, s.nodes[q].routes, s.flying[l.i].frame) else s.nodes[q].routes
  {
    hide Learned;
  }

  lemma NoSelfHop(t: Topology, s: Net, q: U32, d: U32)
    requires Valid(t) && Backed(t, s) && q in s.nodes && d in s.nodes[q].routes
    ensures s.nodes[q].routes[d].nextHop != q
  {
    BackedEntry(t, s, q, d);
    hide Backed, Walk;
  }

  /** Removing q's route to d keeps hop counts falling if and only if no entry leans on it. */
  lemma RemovedDescendingIff(tab: Tables, q: U32, d: U32)
    requires Descending(tab) && q in tab && forall p, x | p in tab && x in tab[p] :: tab[p][x].nextHop != p
    ensures Descending(tab[q := tab[q] - {d}]) <==> !(q != d && d in tab[q] && LeansOn(tab, q, d))
  {
    var tab' := tab[q := tab[q] - {d}];
    if q != d && d in tab[q] && LeansOn(tab, q, d) {
      var p :| p in tab && d in tab[p] && tab[p][d].nextHop == q;
      assert p in tab' && d in tab'[p] && tab'[p][d] == tab[p][d];
      assert !Knows(tab', q, d, tab[p][d].hops - 1);
    } else {
      forall p, x | p in tab' && x in tab'[p]
        ensures tab'[p][x].hops >= 1 && Knows(tab', tab'[p][x].nextHop, x, tab'[p][x].hops - 1)
      {
        assert p in tab && x in tab[p] && tab'[p][x] == tab[p][x];
        assert Knows(tab, tab[p][x].nextHop, x, tab[p][x].hops - 1);
        if tab[p][x].nextHop == q && x == d {
          assert p != q;
        }
      }
    }
  }

  lemma WrapBreaksOrder(t: Topology, tab: Tables, q: U32, f: Frame)
    requires q in tab && RoutesBacked(t, q, tab[q]) && Wraps(q, f)
    ensures !Descending(tab[q := Learned(q, tab[q], f)])
  {
    var d := WrappedEntry(t, q, tab[q], f);
    assert d in Learned(q, tab[q], f) && Learned(q, tab[q], f)[d].hops == 0;
    hide Learned, RoutesBacked, Wraps;
    assert q in tab[q := Learned(q, tab[q], f)];
  }

  lemma ReportRemoves(t: Topology, s: Net, l: Label)
    requires Backed(t, s) && Enabled(s, l) && Teaches(s, l) && s.flying[l.i].frame.body.Rerr?
    ensures var q, f := Actor(s, l), s.flying[l.i].frame;
            Learned(q, s.nodes[q].routes, f) == s.nodes[q].routes - {f.body.originalDest}
  {
    hide RoutesBacked, Remembers;
    assert FrameBacked(t, s.flying[l.i].frame);
  }

  /** A step keeps hop counts falling along next hops if and only if no counter wraps in it and it takes
      away no route through which another node still routes. */
  lemma StepDescendingIff(t: Topology, s: Net, l: Label)
    requires Valid(t) && Backed(t, s) && Descending(TablesOf(s)) && Enabled(s, l)
    requires Teaches(s, l) ==> TellsTrue(TablesOf(s), s.flying[l.i].frame)
    ensures Descending(TablesOf(Step(t, s, l))) <==> NoWrap(s, l) && !StrandsEntry(s, l)
  {
    hide Descending, Learned, RoutesBacked, FrameBacked, Remembers, Accepts, TellsTrue, LeansOn, Wraps, Own;
    if Acts(l) {
      var q, tab := Actor(s, l), TablesOf(s);
      ActTables(t, s, l);
      TaughtRoutes(s, l);
      if Teaches(s, l) {
        TaughtDescendingIff(t, s, l);
      } else {
        SameTables(tab, q);
      }
    } else {
      assert TablesOf(Step(t, s, l)) == TablesOf(s);
    }
  }

  lemma TaughtDescendingIff(t: Topology, s: Net, l: Label)
    requires Valid(t) && Backed(t, s) && Descending(TablesOf(s)) && Enabled(s, l) && Teaches(s, l)
    requires TellsTrue(TablesOf(s), s.flying[l.i].frame)
    ensures var q := Actor(s, l);
            Descending(TablesOf(s)[q := Learned(q, s.nodes[q].routes, s.flying[l.i].frame)]) <==> NoWrap(s, l) && !StrandsEntry(s, l)
  {
    hide Descending, Learned, RoutesBacked, FrameBacked, Remembers, Accepts, TellsTrue, LeansOn, Own;
    var q, f := Actor(s, l), s.flying[l.i].frame;
    var tab: Tables := TablesOf(s);
    if f.body.Rerr? {
      ReportRemoves(t, s, l);
      forall p, x | p in tab && x in tab[p] ensures tab[p][x].nextHop != p {
        NoSelfHop(t, s, p, x);
      }
      RemovedDescendingIff(tab, q, f.body.originalDest);
    } else if Wraps(q, f) {
      WrapBreaksOrder(t, tab, q, f);
    } else {
      LearnedDescending(tab, q, f);
    }
  }

  // ---------- the frames ----------

  lemma CarriedImplied(s: Net, P: Frame -> bool, Q: Frame -> bool)
    requires Carried(s, P) && forall f | P(f) :: Q(f)
    ensures Carried(s, Q)
  {
  }

  /** If what is carried satisfies P, and everything the acting node may send, then so does what is carried after. */
  lemma StepCarried(t: Topology, s: Net, l: Label, P: Frame -> bool)
    requires Placed(t, s) && Enabled(s, l) && Carried(s, P)
    requires Acts(l) ==> forall e | Just(ActContext(s, l), e) :: P(e)
    ensures Carried(Step(t, s, l), P)
  {
    hide Behaves, Result, Just, Own;
    var s' := Step(t, s, l);
    if Acts(l) {
      StepShape(t, s, l);
      BehavesCarried(ActContext(s, l), Before(s, l), Result(s, l), P);
    }
    forall j | 0 <= j < |s'.flying|
      ensures P(s'.flying[j].frame)
    {
      StepFlying(t, s, l, j);
    }
  }

  lemma BehavesCarried(c: Ctx, n: Node, n': Node, P: Frame -> bool)
    requires Behaves(c, n, n') && (forall k | k in n.acks :: P(n.acks[k].frame))
    requires forall e | Just(c, e) :: P(e)
    ensures forall k | k in n'.acks :: P(n'.acks[k].frame)
    ensures forall f | JustAired(n, n', f) :: P(f)
  {
    hide Just;
  }

  /** A handler forgets no entry (only a repeated ID, an ACK or a timer pass does), and a step drops no copy but the one it delivers. */
  lemma ReportKeepsCarried(t: Topology, s: Net, l: Label, P: Frame -> bool)
    requires Placed(t, s) && Enabled(s, l) && Teaches(s, l) && s.flying[l.i].frame.body.Rerr? && P(s.flying[l.i].frame)
    requires Carried(Step(t, s, l), P)
    ensures Carried(s, P)
  {
    hide Result, Behaves, Own, Step, Dispatch;
    StepShape(t, s, l);
    forall j | 0 <= j < |s.flying| ensures P(s.flying[j].frame) {
      if j != l.i {
        ConsumedKeeps(s, l, j);
        StepKeepsCopies(t, s, l, s.flying[j]);
      }
    }
    ReportKeepsEntries(s, l);
    var q, s' := Actor(s, l), Step(t, s, l);
    forall p, k | p in s.nodes && k in s.nodes[p].acks ensures P(s.nodes[p].acks[k].frame) {
      assert k in s'.nodes[p].acks && s'.nodes[p].acks[k] == s.nodes[p].acks[k];
    }
  }

  lemma ReportKeepsEntries(s: Net, l: Label)
    requires Enabled(s, l) && Teaches(s, l) && s.flying[l.i].frame.body.Rerr?
    ensures var n, n' := s.nodes[Actor(s, l)], Result(s, l);
            forall k | k in n.acks :: k in n'.acks && n'.acks[k] == n.acks[k]
  {
    hide Updated, Invalidated;
  }

  // ---------- both together, over whole runs ----------

  /** Removing q's route to d makes false exactly what q has said of d. */
  lemma RemovedTells(tab: Tables, q: U32, d: U32, f: Frame)
    requires q in tab && TellsTrue(tab, f)
    ensures TellsTrue(tab[q := tab[q] - {d}], f) <==> !(q != d && d in tab[q] && SpeaksOf(f, q, d))
  {
  }

  lemma CarriedBoth(s: Net, P: Frame -> bool, Q: Frame -> bool, R: Frame -> bool)
    requires Carried(s, P) && Carried(s, Q) && forall f | P(f) && Q(f) :: R(f)
    ensures Carried(s, R)
  {
  }

  /** What frames say of their senders stays true in the new tables if and only if the step strands no frame. */
  lemma TellsAfterIff(t: Topology, s: Net, l: Label)
    requires Valid(t) && Sure(t, s) && Enabled(s, l) && NoWrap(s, l)
    ensures Carried(s, f => TellsTrue(TablesOf(Step(t, s, l)), f)) <==> !StrandsFrame(s, l)
  {
    hide Descending, Learned, RoutesBacked, FrameBacked, Remembers, Accepts, TellsTrue, SpeaksOf, Own, Carried, Backed, Improves;
    var tab, tab' := TablesOf(s), TablesOf(Step(t, s, l));
    if TakesRoute(s, l) {
      var q, d := Actor(s, l), s.flying[l.i].frame.body.originalDest;
      RemovedTables(t, s, l);
      forall f | TellsTrue(tab, f) ensures TellsTrue(tab', f) <==> !SpeaksOf(f, q, d) {
        RemovedTells(tab, q, d, f);
      }
      if Carried(s, f => TellsTrue(tab', f)) {
        CarriedBoth(s, f => TellsTrue(tab, f), f => TellsTrue(tab', f), f => !SpeaksOf(f, q, d));
      } else if !StrandsFrame(s, l) {
        CarriedBoth(s, f => TellsTrue(tab, f), f => !SpeaksOf(f, q, d), f => TellsTrue(tab', f));
      }
    } else {
      forall f | TellsTrue(tab, f) ensures TellsTrue(tab', f) {
        TellsKept(t, s, l, f);
      }
      CarriedImplied(s, f => TellsTrue(tab, f), f => TellsTrue(tab', f));
    }
  }

  lemma RemovedTables(t: Topology, s: Net, l: Label)
    requires Valid(t) && Backed(t, s) && Enabled(s, l) && Teaches(s, l) && s.flying[l.i].frame.body.Rerr?
    ensures var q, tab := Actor(s, l), TablesOf(s);
            TablesOf(Step(t, s, l)) == tab[q := tab[q] - {s.flying[l.i].frame.body.originalDest}]
  {
    hide Learned, RoutesBacked, FrameBacked, Remembers, Accepts, Step;
    ActTables(t, s, l);
    TaughtRoutes(s, l);
    ReportRemoves(t, s, l);
  }

  lemma TellsKept(t: Topology, s: Net, l: Label, f: Frame)
    requires Valid(t) && Sure(t, s) && Enabled(s, l) && NoWrap(s, l) && !TakesRoute(s, l) && TellsTrue(TablesOf(s), f)
    ensures TellsTrue(TablesOf(Step(t, s, l)), f)
  {
    hide Descending, Learned, RoutesBacked, FrameBacked, Remembers, Accepts, TellsTrue, Own, Improves;
    var tab := TablesOf(s);
    if Acts(l) {
      var q := Actor(s, l);
      if Teaches(s, l) && s.flying[l.i].frame.body.Rerr? {
        RemovedTables(t, s, l);
        RemovedTells(tab, q, s.flying[l.i].frame.body.originalDest, f);
      } else {
        ActTables(t, s, l);
        TaughtRoutes(s, l);
        if Teaches(s, l) {
          LearnedDescending(tab, q, s.flying[l.i].frame);
        } else {
          SameTables(tab, q);
        }
        TellsImproves(tab, TablesOf(Step(t, s, l)), f);
      }
    } else {
      assert TablesOf(Step(t, s, l)) == tab;
    }
  }

  /** Whatever the acting node sends speaks the truth by its new table. */
  lemma JustTells(tab: Tables, c: Ctx, e: Frame)
    requires c.me in tab && tab[c.me] == c.routes && Just(c, e)
    requires c.cause.Received? ==> Subject(tab, c.me, c.cause.frame) && !Wraps(c.me, c.cause.frame)
    ensures TellsTrue(tab, e)
  {
  }

  lemma ActTells(t: Topology, s: Net, l: Label, e: Frame)
    requires Valid(t) && Sure(t, s) && Enabled(s, l) && Acts(l) && NoWrap(s, l) && Just(ActContext(s, l), e)
    ensures TellsTrue(TablesOf(Step(t, s, l)), e)
  {
    hide Descending, Learned, RoutesBacked, FrameBacked, Remembers, TellsTrue, Own, Improves, Just, Step, Subject;
    var c, q := ActContext(s, l), Actor(s, l);
    ActTables(t, s, l);
    TaughtRoutes(s, l);
    if c.cause.Received? {
      if c.cause.frame.body.Rerr? {
        SilentSubject(TablesOf(Step(t, s, l)), q, c.cause.frame);
      } else {
        LearnedDescending(TablesOf(s), q, c.cause.frame);
      }
    }
    JustTells(TablesOf(Step(t, s, l)), c, e);
  }

  lemma SilentSubject(tab: Tables, q: U32, f: Frame)
    requires f.body.Rerr?
    ensures Subject(tab, q, f)
  {
  }

  /** A step keeps the network sure if and only if no counter wraps in it and it takes away no route that an
      entry elsewhere or a frame in flight or remembered still counts on. */
  lemma StepSureIff(t: Topology, s: Net, l: Label)
    requires Valid(t) && Sure(t, s) && Enabled(s, l)
    ensures Sure(t, Step(t, s, l)) <==> NoWrap(s, l) && !StrandsEntry(s, l) && !StrandsFrame(s, l)
  {
    hide Descending, RoutesBacked, FrameBacked, Remembers, Accepts, TellsTrue, Own, Carried, StrandsEntry, StrandsFrame, NoWrap, Step;
    StepBackedIff(t, s, l);
    if Teaches(s, l) {
      TaughtTells(t, s, l);
    }
    StepDescendingIff(t, s, l);
    if NoWrap(s, l) {
      TellsAfterIff(t, s, l);
      CarriedAfterIff(t, s, l);
    }
  }

  lemma TaughtTells(t: Topology, s: Net, l: Label)
    requires Sure(t, s) && Teaches(s, l)
    ensures TellsTrue(TablesOf(s), s.flying[l.i].frame)
  {
    hide Backed, Descending, TellsTrue, Accepts;
  }

  lemma CarriedAfterIff(t: Topology, s: Net, l: Label)
    requires Valid(t) && Sure(t, s) && Enabled(s, l) && NoWrap(s, l)
    ensures var P := f => TellsTrue(TablesOf(Step(t, s, l)), f); Carried(Step(t, s, l), P) <==> Carried(s, P)
  {
    hide Descending, RoutesBacked, FrameBacked, Remembers, TellsTrue, Own, Just, Step, Carried;
    var P := f => TellsTrue(TablesOf(Step(t, s, l)), f);
    if Carried(s, P) {
      if Acts(l) {
        forall e | Just(ActContext(s, l), e) ensures P(e) {
          ActTells(t, s, l, e);
        }
      }
      StepCarried(t, s, l, P);
    } else if Carried(Step(t, s, l), P) {
      TellsAfterIff(t, s, l);
      assert TakesRoute(s, l);
      SilentTells(TablesOf(Step(t, s, l)), s.flying[l.i].frame);
      ReportKeepsCarried(t, s, l, P);
    }
  }

  lemma SilentTells(tab: Tables, f: Frame)
    requires f.body.Rerr?
    ensures TellsTrue(tab, f)
  {
  }

  /** A run from empty tables in which no counter wraps and no removal strands an entry or a frame. */
  ghost predicate SureHistory(t: Topology, ss: seq<Net>, ls: seq<Label>) {
    IsHistory(t, ss, ls)
    && forall j | 0 <= j < |ls| :: NoWrap(ss[j], ls[j]) && !StrandsEntry(ss[j], ls[j]) && !StrandsFrame(ss[j], ls[j])
  }

  lemma StartSure(t: Topology, env: Env)
    ensures Sure(t, Start(t, env))
  {
  }

  lemma {:induction false} SureRuns(t: Topology, ss: seq<Net>, ls: seq<Label>, i: nat)
    requires Valid(t) && SureHistory(t, ss, ls) && i < |ss|
    ensures Sure(t, ss[i])
  {
    hide Step, Enabled, IsHistory, StrandsEntry, StrandsFrame, NoWrap, Sure;
    var env := HistoryStart(t, ss, ls);
    StartSure(t, env);
    if i > 0 {
      SureRuns(t, ss, ls, i - 1);
      HistoryStep(t, ss, ls, i - 1);
      StepSureIff(t, ss[i - 1], ls[i - 1]);
    }
  }

  /** Over whole runs: the network is sure in every state if and only if no step of the run makes a counter
      wrap or strands an entry or a frame. */
  lemma SureRunsIff(t: Topology, ss: seq<Net>, ls: seq<Label>)
    requires Valid(t) && IsHistory(t, ss, ls)
    ensures (forall i | 0 <= i < |ss| :: Sure(t, ss[i])) <==> SureHistory(t, ss, ls)
  {
    hide Step, Enabled, IsHistory, StrandsEntry, StrandsFrame, NoWrap, Sure;
    var _ := HistoryStart(t, ss, ls);
    if forall i | 0 <= i < |ss| :: Sure(t, ss[i]) {
      forall j | 0 <= j < |ls|
        ensures NoWrap(ss[j], ls[j]) && !StrandsEntry(ss[j], ls[j]) && !StrandsFrame(ss[j], ls[j])
      {
        HistoryStep(t, ss, ls, j);
        StepSureIff(t, ss[j], ls[j]);
        assert Sure(t, ss[j + 1]);
      }
    }
    if SureHistory(t, ss, ls) {
      forall i | 0 <= i < |ss| ensures Sure(t, ss[i]) {
        SureRuns(t, ss, ls, i);
      }
    }
  }

  /** Runs without expiries are such runs: no error report ever flies in them. */
  lemma CalmIsSure(t: Topology, ss: seq<Net>, ls: seq<Label>)
    requires Valid(t) && CalmHistory(t, ss, ls)
    ensures SureHistory(t, ss, ls)
  {
    hide IsHistory, NoExpiry, Calm;
    var _ := HistoryStart(t, ss, ls);
    forall j | 0 <= j < |ls| ensures !TakesRoute(ss[j], ls[j]) {
      CalmRuns(t, ss, ls, j);
      CalmTakesNothing(t, ss[j], ls[j]);
    }
  }

  lemma CalmTakesNothing(t: Topology, s: Net, l: Label)
    requires Calm(t, s)
    ensures !TakesRoute(s, l)
  {
    hide Backed, Descending, Remembers;
    if TakesRoute(s, l) {
      FlyingPromises(t, s, l.i);
    }
  }

  /** Loop freedom: as long as no counter wraps and no removal takes away a route that an entry or a frame
      still counts on, every route arrives within its own hop count. */
  lemma RoutesArrive(t: Topology, ss: seq<Net>, ls: seq<Label>, i: nat, q: U32, d: U32)
    requires Valid(t) && SureHistory(t, ss, ls) && i < |ss|
    requires q in ss[i].nodes && d in ss[i].nodes[q].routes
    ensures Arrives(TablesOf(ss[i]), q, d, ss[i].nodes[q].routes[d].hops)
  {
    SureRuns(t, ss, ls, i);
    hide SureHistory;
    DescendingArrives(TablesOf(ss[i]), q, d, ss[i].nodes[q].routes[d].hops);
  }

  // ---------- the loop ----------

  /** Following next hops from b or a, both of which route d through the other, never arrives. */
  lemma {:induction false} NeverArrives(tab: Tables, a: U32, b: U32, d: U32, q: U32, k: nat)
    requires a in tab && b in tab && d in tab[a] && d in tab[b] && d != a && d != b
    requires tab[a][d].nextHop == b && tab[b][d].nextHop == a
    requires q == a || q == b
    ensures !Arrives(tab, q, d, k)
    decreases k
  {
    if k > 0 {
      NeverArrives(tab, a, b, d, tab[q][d].nextHop, k - 1);
    }
  }

  /** Error reports break loop freedom. Node a routes d through b in two hops or more; b hears a report that
      takes its route to d away and asks for a new one; a answers from its table; and b believes it. Each
      now routes d through the other. */
  lemma LoopAfterRemoval(a: Node, b: Node, d: U32, report: Frame, request: Frame)
    requires a.me != b.me && d != a.me && d != b.me
    requires d in a.routes && a.routes[d].nextHop == b.me && ROUTE_REPLY_THRESHOLD <= a.routes[d].hops < 255
    requires report.body.Rerr? && report.body.broken == report.body.reporter && report.body.originalDest == d
    requires request.body == Rreq(d) && request.prev == request.origin == b.me
    ensures var a' := HandleRreq(a, request);
            var b1 := HandleRerr(b, report);
            && d !in b1.routes && |a'.io.handed| > 0
            && var reply := a'.io.handed[|a'.io.handed| - 1];
            && reply.body == Rrep(d, a.routes[d].hops) && reply.dest == b.me && reply.prev == a.me
            && var tab := map[a.me := a'.routes, b.me := LearnRrep(b1, reply).routes];
               forall k: nat :: !Arrives(tab, a.me, d, k) && !Arrives(tab, b.me, d, k)
  {
    var m := LearnRreq(a, request);
    assert d in m.routes && m.routes[d] == a.routes[d];
    Handed(Drew(m), Frame(b.me, m.me, b.me, Draw(m), 0, 0, Rrep(d, a.routes[d].hops)));
    var a' := HandleRreq(a, request);
    var b1 := HandleRerr(b, report);
    BackwardRoutes(LearnRerr(b, report), report, report.body);
    hide Transmit, HandleRerr;
    var reply := a'.io.handed[|a'.io.handed| - 1];
    var tab := map[a.me := a'.routes, b.me := LearnRrep(b1, reply).routes];
    forall k: nat ensures !Arrives(tab, a.me, d, k) && !Arrives(tab, b.me, d, k) {
      NeverArrives(tab, a.me, b.me, d, a.me, k);
      NeverArrives(tab, a.me, b.me, d, b.me, k);
    }
  }

  lemma Handed(n: Node, f: Frame)
    ensures Transmit(n, f).io.handed == n.io.handed + [f] && Transmit(n, f).routes == n.routes && Transmit(n, f).me == n.me
  {
  }

  lemma BackwardRoutes(n: Node, f: Frame, body: Body)
    ensures Backward(n, f, body).routes == n.routes && Backward(n, f, body).me == n.me
  {
  }
}
