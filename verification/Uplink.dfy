/** Which gateway messages for the uplink go to: the remembered one is chosen only
    when the set of known gateways changes, by the routes of that moment. */
module Uplink {
  import opened Packets
  import opened Nodes
  import opened Effects
  import opened Network
  import opened Mail
  import opened Conservation
  import opened Gateways
  import Ordered

  // ---------- one announcement ----------

  predicate Announces(f: Frame) {
    f.body.Info? && f.flags == I_AM_GATEWAY
  }

  predicate Withdraws(f: Frame) {
    f.body.Info? && f.flags != I_AM_GATEWAY
  }

  /** The gateway part of what a broadcast teaches, by the routes known before it. */
  lemma InfoPeers(n: Node, f: Frame)
    requires f.body.Info?
    ensures var p, q := LearnInfo(n, f).peers, (if Announces(f) then AddGateway(n, f.origin) else RemoveGateway(n, f.origin)).peers;
            p.gateways == q.gateways && p.closestGw == q.closestGw && p.closestHops == q.closestHops
  {
    hide Claim, Unclaim, Updated, Closest, Without, AddedIds, RemovedIds;
  }

  /** The first announcement of a gateway: the scan runs before the frame's own routes are learned, so a
      gateway is remembered if and only if one of those then known already had a route below 255 hops. */
  lemma NewAnnouncement(n: Node, f: Frame)
    requires Announces(f) && f.origin !in n.peers.gateways && f.origin != 0 && 0 !in n.peers.gateways
    ensures var p, gws := LearnInfo(n, f).peers, n.peers.gateways + [f.origin];
            && p.gateways == gws && (p.closestGw, p.closestHops) == Closest(n.routes, gws)
            && (p.closestGw != 0 <==> exists g :: g in gws && g in n.routes && n.routes[g].hops < 255)
  {
    InfoPeers(n, f);
    ClosestIsNearest(n.routes, n.peers.gateways + [f.origin]);
    hide LearnInfo, Closest;
  }

  /** An announcement that repeats a known gateway changes neither the gateways nor the choice. */
  lemma RepeatedAnnouncement(n: Node, f: Frame)
    requires Announces(f) && f.origin in n.peers.gateways
    ensures var p := LearnInfo(n, f).peers;
            p.gateways == n.peers.gateways && p.closestGw == n.peers.closestGw && p.closestHops == n.peers.closestHops
  {
    InfoPeers(n, f);
    hide LearnInfo;
  }

  /** A gateway that had no route when it announced itself is never the one remembered. */
  lemma UnroutedNeverChosen(n: Node, f: Frame)
    requires Announces(f) && f.origin !in n.peers.gateways && f.origin != 0 && 0 !in n.peers.gateways
    requires f.origin !in n.routes
    ensures LearnInfo(n, f).peers.closestGw != f.origin
  {
    NewAnnouncement(n, f);
    ClosestIsNearest(n.routes, n.peers.gateways + [f.origin]);
    hide LearnInfo, Closest;
  }

  // ---------- what a frame does to the order of the gateways ----------

  /** Learning from the frame, node `me` is offered a route of k hops to x. */
  predicate Offers(me: U32, f: Frame, x: U32, k: U8) {
    || (x == f.prev && k == 1 && (LessonOf(f).Lesson? || f.body.Uerr? || f.body.MoveUser?))
    || (LessonOf(f).Lesson? && x == LessonOf(f).node && k == Inc8(LessonOf(f).hops) && !(f.body.Info? && x == me))
  }

  /** The frame is an error report that takes the route to g away. */
  predicate Cuts(r: Routes, f: Frame, g: U32) {
    && f.body.Rerr? && g in r
    && (g == f.body.originalDest || (f.body.broken != f.body.reporter && (g == f.body.broken || r[g].nextHop == f.body.broken)))
  }

  /** The frame offers some gateway a route shorter than the one to g, and shorter than any it offers to g. */
  ghost predicate Betters(me: U32, r: Routes, f: Frame, gws: seq<U32>, g: U32) {
    g in r && exists x: U32, k: U8 :: x in gws && Offers(me, f, x, k) && k < r[g].hops && forall j: U8 | Offers(me, f, g, j) :: k < j
  }

  /** After one update. */
  ghost predicate Shorter(r: Routes, r': Routes, d: U32, p: U32, k: U8) {
    && (forall x | x in r && x != d :: x in r' && r'[x] == r[x])
    && (forall x | x in r' && x != d :: x in r)
    && d in r' && r'[d] == if d in r && r[d].hops <= k then r[d] else Route(p, k)
  }

  lemma UpdatedShortest(r: Routes, d: U32, p: U32, k: U8)
    ensures Shorter(r, Updated(r, d, p, k), d, p, k)
  {
  }

  lemma OneOffer(me: U32, r: Routes, f: Frame)
    requires (f.body.Info? && f.origin == me) || f.body.Uerr? || f.body.MoveUser?
    ensures Shorter(r, Learned(me, r, f), f.prev, f.prev, 1)
    ensures forall x: U32, k: U8 :: Offers(me, f, x, k) <==> x == f.prev && k == 1
  {
    UpdatedShortest(r, f.prev, f.prev, 1);
    hide Updated;
  }

  lemma TwoOffers(me: U32, r: Routes, f: Frame) returns (mid: Routes, d1: U32, k1: U8, d2: U32, k2: U8)
    requires LessonOf(f).Lesson? && !(f.body.Info? && f.origin == me)
    ensures Shorter(r, mid, d1, f.prev, k1) && Shorter(mid, Learned(me, r, f), d2, f.prev, k2)
    ensures forall x: U32, k: U8 :: Offers(me, f, x, k) <==> (x == d1 && k == k1) || (x == d2 && k == k2)
  {
    hide Updated;
    var d, k := LessonOf(f).node, Inc8(LessonOf(f).hops);
    if f.body.Rreq? || f.body.Rrep? {
      d1, k1, d2, k2 := d, k, f.prev, 1;
    } else {
      d1, k1, d2, k2 := f.prev, 1, d, k;
    }
    mid := Updated(r, d1, f.prev, k1);
    UpdatedShortest(r, d1, f.prev, k1);
    UpdatedShortest(mid, d2, f.prev, k2);
    assert Learned(me, r, f) == Updated(mid, d2, f.prev, k2);
  }

  /** A table that has learned from a frame holds, for each node, the shortest of what it held and what it was offered. */
  lemma LearnedShortest(me: U32, r: Routes, f: Frame)
    requires !f.body.Rerr?
    ensures var r' := Learned(me, r, f);
            && (forall x | x in r :: x in r' && r'[x].hops <= r[x].hops)
            && (forall x: U32, k: U8 | Offers(me, f, x, k) :: x in r' && r'[x].hops <= k)
            && (forall x | x in r' :: (x in r && r'[x] == r[x]) || Offers(me, f, x, r'[x].hops))
  {
    hide Learned, Offers;
    if LessonOf(f).Lesson? && !(f.body.Info? && f.origin == me) {
      var mid, d1, k1, d2, k2 := TwoOffers(me, r, f);
    } else if f.body.Info? || f.body.Uerr? || f.body.MoveUser? {
      OneOffer(me, r, f);
    } else {
      NoOffer(me, r, f);
    }
  }

  lemma NoOffer(me: U32, r: Routes, f: Frame)
    requires f.body.Data? || f.body.UserMsg? || f.body.Ack?
    ensures Learned(me, r, f) == r && forall x: U32, k: U8 :: !Offers(me, f, x, k)
  {
  }

  /** A gateway of fewest hops stays so if and only if the frame neither takes its route away nor offers
      another known gateway a shorter one. */
  lemma LearnedFewestIff(me: U32, r: Routes, f: Frame, gws: seq<U32>, g: U32)
    requires FewestHops(r, gws, g)
    ensures FewestHops(Learned(me, r, f), gws, g) <==> !Cuts(r, f, g) && !Betters(me, r, f, gws, g)
  {
    if f.body.Rerr? {
      hide Betters;
      NothingOffered(me, r, f, gws, g);
    } else {
      LearnedShortest(me, r, f);
      OfferedFewestIff(me, r, Learned(me, r, f), f, gws, g);
      hide Learned, FewestHops, Betters;
    }
  }

  lemma NothingOffered(me: U32, r: Routes, f: Frame, gws: seq<U32>, g: U32)
    requires f.body.Rerr?
    ensures !Betters(me, r, f, gws, g)
  {
  }

  lemma OfferedFewestIff(me: U32, r: Routes, r': Routes, f: Frame, gws: seq<U32>, g: U32)
    requires FewestHops(r, gws, g)
    requires forall x | x in r :: x in r' && r'[x].hops <= r[x].hops
    requires forall x: U32, k: U8 | Offers(me, f, x, k) :: x in r' && r'[x].hops <= k
    requires forall x | x in r' :: (x in r && r'[x] == r[x]) || Offers(me, f, x, r'[x].hops)
    ensures FewestHops(r', gws, g) <==> !Betters(me, r, f, gws, g)
  {
    hide Offers;
    if !FewestHops(r', gws, g) {
      var x :| x in gws && x in r' && r'[x].hops < r'[g].hops;
      assert Offers(me, f, x, r'[x].hops);
    }
    if Betters(me, r, f, gws, g) {
      var x: U32, k: U8 :| x in gws && Offers(me, f, x, k) && k < r[g].hops && forall j: U8 | Offers(me, f, g, j) :: k < j;
      assert r'[x].hops <= k < r'[g].hops;
    }
  }

  // ---------- the choice after a scan ----------

  /** After a first announcement that leaves a gateway remembered, that one is of fewest hops if and only
      if the announcing frame itself has not just taught a shorter route to a known gateway: to the
      announcing one, or to the neighbour it came from. */
  lemma ChosenFewestIff(n: Node, f: Frame)
    requires Announces(f) && f.origin !in n.peers.gateways && f.origin != 0 && 0 !in n.peers.gateways
    requires LearnInfo(n, f).peers.closestGw != 0
    ensures var n', c := LearnInfo(n, f), LearnInfo(n, f).peers.closestGw;
            && c in n'.routes && GatewayTarget(n') == c
            && (FewestHops(n'.routes, n'.peers.gateways, c) <==>
                  !exists g :: g in {f.prev, f.origin} && g in n'.peers.gateways && g in n'.routes && n'.routes[g].hops < n'.routes[c].hops)
  {
    NewAnnouncement(n, f);
    LearnRoutes(n, f);
    var gws, r' := n.peers.gateways + [f.origin], LearnInfo(n, f).routes;
    var c := LearnInfo(n, f).peers.closestGw;
    ClosestIsNearest(n.routes, gws);
    hide LearnInfo, Closest;
    assert forall x | x in r' && x != f.prev && x != f.origin :: x in n.routes && r'[x] == n.routes[x];
    assert forall x | x in n.routes :: x in r' && r'[x].hops <= n.routes[x].hops;
  }

  // ---------- any sequence of activations ----------

  /** The routes and gateways that the last scan looked at. */
  datatype Scan = Scan(routes: Routes, gateways: seq<U32>)

  /** A scan runs when a gateway is added, and when the remembered one is removed. */
  ghost function Rescan(n: Node, f: Frame, before: Scan): Scan {
    var gws := n.peers.gateways;
    if Announces(f) && f.origin !in gws then Scan(n.routes, gws + [f.origin])
    else if Withdraws(f) && f.origin in gws && f.origin == n.peers.closestGw then Scan(n.routes, Without(gws, f.origin))
    else before
  }

  ghost function ScanStep(n0: Node, e: Event, before: Scan): Scan {
    var n := Awake(n0, e.env);
    if e.Hear? && Accepts(n, e.frame) then Rescan(n, e.frame, before) else before
  }

  ghost function LastScan(n: Node, es: seq<Event>): Scan
    decreases |es|
  {
    if es == [] then Scan(map[], [])
    else ScanStep(Play(n, es[..|es| - 1]), es[|es| - 1], LastScan(n, es[..|es| - 1]))
  }

  /** What the node remembers is what that scan found; since then gateways have only been taken away. */
  ghost predicate FromScan(p: Peers, sc: Scan) {
    && (p.closestGw, p.closestHops) == Closest(sc.routes, sc.gateways)
    && (forall g | g in p.gateways :: g in sc.gateways)
    && ChoiceKnown(p)
  }

  ghost predicate SameChoice(p: Peers, q: Peers) {
    q.gateways == p.gateways && q.closestGw == p.closestGw && q.closestHops == p.closestHops
  }

  lemma RescanFrom(n: Node, f: Frame, sc: Scan)
    requires f.body.Info? && FromScan(n.peers, sc)
    ensures FromScan(LearnInfo(n, f).peers, Rescan(n, f, sc))
  {
    hide LearnInfo, Closest, Without, NoDup;
    InfoPeers(n, f);
    if Announces(f) {
      AddKeeps(n, f.origin);
    } else {
      RemoveKeeps(n, f.origin);
    }
  }

  /** Only a broadcast touches the choice, and only through what it teaches. */
  lemma DispatchPeers(n: Node, f: Frame)
    ensures f.body.Info? ==> Dispatch(n, f).peers == LearnInfo(n, f).peers
    ensures !f.body.Info? ==> SameChoice(n.peers, Dispatch(n, f).peers)
  {
    if !f.body.Ack? {
      DispatchEmits(n, f, 0);
      hide NewAir, NewAcks, NewNotes, Undisturbed, Ledger, Dispatch, LearnInfo;
    }
  }

  lemma HearFromScan(n: Node, f: Frame, sc: Scan)
    requires FromScan(n.peers, sc)
    ensures FromScan(HandlePacket(n, f).peers, if Accepts(n, f) then Rescan(n, f, sc) else sc)
  {
    var m := n.(seen := n.seen + {f.id});
    if Accepts(n, f) {
      DispatchPeers(m, f);
      if f.body.Info? {
        RescanFrom(m, f, sc);
      }
      hide Dispatch, LearnInfo, Closest;
    }
  }

  lemma OtherFromScan(n: Node, e: Event)
    requires !e.Hear?
    ensures After(n, e).peers == n.peers
  {
    var m := Awake(n, e.env);
    match e
    case Ask(call, _) =>
      var watch := if call.CallData? || call.CallUserMsg? then OtherThan(call.id) else 0;
      ApiEmits(Ctx(m.me, m.routes, Call, watch, 0), m, call);
      hide Api, NewAir, NewAcks, NewNotes, Undisturbed, Ledger;
    case Tick(_, garbled) =>
      var s := Sweep(m, Ordered.Ascending(m.acks.Keys));
      SweepQuiet(m, Ordered.Ascending(m.acks.Keys));
      ReportAllQuiet(s.node, s.expired, garbled);
      hide Sweep, ReportAll, SentBy;
  }

  lemma EventFromScan(n: Node, e: Event, sc: Scan)
    requires FromScan(n.peers, sc)
    ensures FromScan(After(n, e).peers, ScanStep(n, e, sc))
  {
    if e.Hear? {
      HearFromScan(Awake(n, e.env), e.frame, sc);
    } else {
      OtherFromScan(n, e);
    }
    hide FromScan, HandlePacket, Api, CleanupAcks, Rescan;
  }

  lemma {:induction false} PlayFromScan(me: U32, env: Env, es: seq<Event>)
    ensures FromScan(Play(Fresh(me, env), es).peers, LastScan(Fresh(me, env), es))
    decreases |es|
  {
    if es != [] {
      hide FromScan, After, ScanStep;
      var k := |es| - 1;
      PlayFromScan(me, env, es[..k]);
      EventFromScan(Play(Fresh(me, env), es[..k]), es[k], LastScan(Fresh(me, env), es[..k]));
    }
  }

  /** After any activations since boot, a message for the uplink would go to a known gateway. */
  lemma UplinkTargetKnown(me: U32, env: Env, es: seq<Event>)
    ensures var n := Play(Fresh(me, env), es); n.peers.gateways != [] ==> GatewayTarget(n) in n.peers.gateways
  {
    PlayFromScan(me, env, es);
    hide Play, LastScan;
  }

  /** The entry for d is the same in both tables. */
  predicate Unmoved(r: Routes, r': Routes, d: U32) {
    if d in r then d in r' && r'[d] == r[d] else d !in r'
  }

  /** After any activations since boot a gateway is remembered if and only if one known at the last scan then had
      a route below 255 hops. The remembered one was then of fewest hops, and as long as no known gateway's route
      changes it stays so. */
  lemma UplinkChoice(me: U32, env: Env, es: seq<Event>)
    ensures var n, sc := Play(Fresh(me, env), es), LastScan(Fresh(me, env), es);
            var p, gws := n.peers, n.peers.gateways;
            && (p.closestHops < 255 <==> exists x :: x in sc.gateways && x in sc.routes && sc.routes[x].hops < 255)
            && (p.closestHops < 255 ==> FewestHops(sc.routes, sc.gateways, p.closestGw))
            && (gws != [] && p.closestGw != 0 && (forall x | x in gws :: Unmoved(sc.routes, n.routes, x)) ==>
                  FewestHops(n.routes, gws, GatewayTarget(n)))
  {
    var sc := LastScan(Fresh(me, env), es);
    PlayFromScan(me, env, es);
    ClosestIsNearest(sc.routes, sc.gateways);
    hide Play, LastScan, Closest;
  }

  // ---------- from one activation to the next ----------

  /** Messages for the uplink go to a gateway of fewest hops. */
  ghost predicate Nearest(n: Node) {
    n.peers.gateways != [] && FewestHops(n.routes, n.peers.gateways, GatewayTarget(n))
  }

  /** The gateways and the choice after the frame, next to the routes before it. */
  ghost function Rechosen(n: Node, f: Frame): Node {
    if Announces(f) then AddGateway(n, f.origin) else if Withdraws(f) then RemoveGateway(n, f.origin) else n
  }

  /** The event makes the node learn from a frame that takes the target's route away, or offers another known
      gateway a shorter one. */
  ghost predicate Spoils(n0: Node, e: Event) {
    var n := Awake(n0, e.env);
    e.Hear? && Accepts(n, e.frame) &&
    var m := Rechosen(n, e.frame);
    m.peers.gateways != [] &&
    (Cuts(n.routes, e.frame, GatewayTarget(m)) || Betters(n.me, n.routes, e.frame, m.peers.gateways, GatewayTarget(m)))
  }

  /** The event does not take the target off the list, and gateways have set IDs. */
  ghost predicate KeepsTarget(n: Node, e: Event) {
    e.Hear? && e.frame.body.Info? && n.peers.gateways != [] ==>
      e.frame.origin != 0 && !(Withdraws(e.frame) && e.frame.origin == GatewayTarget(n))
  }

  lemma {:induction false} WithoutOther(s: seq<U32>, x: U32)
    requires s != [] && s[0] != x
    ensures Without(s, x) != [] && Without(s, x)[0] == s[0]
  {
  }

  /** By the routes before the frame, the target after it is of fewest hops. */
  lemma RechosenNearest(n: Node, f: Frame)
    requires Nearest(n) && GatewaysSet(n.peers)
    requires f.body.Info? ==> f.origin != 0 && !(Withdraws(f) && f.origin == GatewayTarget(n))
    ensures Nearest(Rechosen(n, f)) && GatewaysSet(Rechosen(n, f).peers) && Rechosen(n, f).routes == n.routes
  {
    hide Closest, Without, NoDup;
    if Announces(f) {
      AddKeeps(n, f.origin);
      ClosestIsNearest(n.routes, n.peers.gateways + [f.origin]);
    } else if Withdraws(f) {
      RemoveKeeps(n, f.origin);
      if n.peers.gateways[0] != f.origin {
        WithoutOther(n.peers.gateways, f.origin);
      }
    }
  }

  lemma SameRechosen(n: Node, m: Node, f: Frame)
    requires m.peers == n.peers && m.routes == n.routes
    ensures SameChoice(Rechosen(n, f).peers, Rechosen(m, f).peers)
  {
    hide Closest, Without;
  }

  lemma InfoRechosen(n: Node, f: Frame)
    requires f.body.Info?
    ensures SameChoice(Rechosen(n, f).peers, LearnInfo(n, f).peers)
  {
    hide LearnInfo, AddGateway, RemoveGateway;
    InfoPeers(n, f);
  }

  lemma HearsChoice(n: Node, f: Frame)
    requires Accepts(n, f)
    ensures SameChoice(Rechosen(n, f).peers, HandlePacket(n, f).peers)
  {
    hide Dispatch, LearnInfo, AddGateway, RemoveGateway;
    var m := n.(seen := n.seen + {f.id});
    DispatchPeers(m, f);
    if f.body.Info? {
      InfoRechosen(m, f);
      SameRechosen(n, m, f);
    }
  }

  lemma HearsNearest(n: Node, f: Frame)
    ensures var n' := HandlePacket(n, f);
            if Accepts(n, f) then
              SameChoice(Rechosen(n, f).peers, n'.peers) && n'.routes == Learned(n.me, n.routes, f)
            else n'.peers == n.peers && n'.routes == n.routes
  {
    hide Dispatch, Learned, Rechosen, Behaves;
    HandlePacketBehaves(n, f);
    BehavesLearned(Context(n, f), n, HandlePacket(n, f));
    if Accepts(n, f) {
      HearsChoice(n, f);
    }
  }

  lemma BehavesLearned(c: Ctx, n: Node, n': Node)
    requires Behaves(c, n, n')
    ensures n'.routes == c.routes
  {
  }

  lemma OtherRoutes(n: Node, e: Event)
    requires !e.Hear?
    ensures After(n, e).routes == n.routes
  {
    var m := Awake(n, e.env);
    hide Api, CleanupAcks, Behaves;
    match e
    case Ask(call, _) =>
      ApiBehaves(m, call);
      BehavesLearned(Ctx(m.me, m.routes, Call, 0, 0), m, Api(m, call));
    case Tick(_, garbled) =>
      CleanupBehaves(m, garbled);
      BehavesLearned(Ctx(m.me, m.routes, Expiry, 0, 0), m, CleanupAcks(m, garbled));
  }

  /** An activation that leaves the target on the list keeps it of fewest hops if and only if it is not a frame
      that takes its route away or offers another known gateway a shorter one. */
  lemma StaysNearestIff(n: Node, e: Event)
    requires Nearest(n) && GatewaysSet(n.peers) && KeepsTarget(n, e)
    ensures Nearest(After(n, e)) <==> !Spoils(n, e)
    ensures GatewaysSet(After(n, e).peers)
  {
    if e.Hear? {
      HeardNearestIff(Awake(n, e.env), e);
    } else {
      OtherFromScan(n, e);
      OtherRoutes(n, e);
    }
    hide HandlePacket, Api, CleanupAcks, FewestHops;
  }

  lemma HeardNearestIff(n: Node, e: Event)
    requires e.Hear? && n.io.env == e.env && Nearest(n) && GatewaysSet(n.peers) && KeepsTarget(n, e)
    ensures Nearest(HandlePacket(n, e.frame)) <==> !Spoils(n, e)
    ensures GatewaysSet(HandlePacket(n, e.frame).peers)
  {
    HearsNearest(n, e.frame);
    hide HandlePacket, FewestHops, Cuts, Betters, Rechosen, Learned, Accepts;
    assert Awake(n, e.env) == n;
    if Accepts(n, e.frame) {
      RechosenNearest(n, e.frame);
      var m := Rechosen(n, e.frame);
      LearnedFewestIff(n.me, n.routes, e.frame, m.peers.gateways, GatewayTarget(m));
    }
  }

  ghost predicate Throughout(n: Node, es: seq<Event>) {
    forall k | 0 <= k <= |es| :: Nearest(Play(n, es[..k]))
  }

  ghost predicate Unspoilt(n: Node, es: seq<Event>) {
    forall k | 0 <= k < |es| :: !Spoils(Play(n, es[..k]), es[k])
  }

  ghost predicate KeepTarget(n: Node, es: seq<Event>) {
    forall k | 0 <= k < |es| :: KeepsTarget(Play(n, es[..k]), es[k])
  }

  lemma SamePrefix(front: seq<Event>, e: Event, k: nat)
    requires k <= |front|
    ensures (front + [e])[..k] == front[..k] && front[..|front|] == front
  {
  }

  lemma LastThroughout(n: Node, front: seq<Event>, e: Event)
    requires Throughout(n, front + [e])
    ensures Throughout(n, front)
  {
    hide Nearest, Play;
    forall k | 0 <= k <= |front| ensures Nearest(Play(n, front[..k])) {
      SamePrefix(front, e, k);
    }
  }

  lemma AlsoThroughout(n: Node, front: seq<Event>, e: Event)
    requires Throughout(n, front) && Nearest(Play(n, front + [e]))
    ensures Throughout(n, front + [e])
  {
    hide Nearest, Play;
    var es := front + [e];
    forall k | 0 <= k <= |es| ensures Nearest(Play(n, es[..k])) {
      if k <= |front| {
        SamePrefix(front, e, k);
      } else {
        assert es[..k] == es;
      }
    }
  }

  lemma LastUnspoilt(n: Node, front: seq<Event>, e: Event)
    ensures Unspoilt(n, front + [e]) <==> Unspoilt(n, front) && !Spoils(Play(n, front), e)
  {
    hide Spoils, Play;
    var es := front + [e];
    forall k | 0 <= k <= |front| ensures es[..k] == front[..k] && (k < |front| ==> es[k] == front[k]) {
      SamePrefix(front, e, k);
    }
    SamePrefix(front, e, |front|);
    assert es[|front|] == e;
  }

  lemma LastKeepTarget(n: Node, front: seq<Event>, e: Event)
    requires KeepTarget(n, front + [e])
    ensures KeepTarget(n, front) && KeepsTarget(Play(n, front), e)
  {
    hide KeepsTarget, Play;
    var es := front + [e];
    forall k | 0 <= k < |front| ensures KeepsTarget(Play(n, front[..k]), front[k]) {
      SamePrefix(front, e, k);
      assert es[k] == front[k];
    }
    SamePrefix(front, e, |front|);
    assert es[|front|] == e;
  }

  lemma PlaySnoc(n: Node, front: seq<Event>, e: Event)
    ensures Play(n, front + [e]) == After(Play(n, front), e)
  {
    hide After;
    assert (front + [e])[..|front|] == front;
  }

  lemma WholeThroughout(n: Node, es: seq<Event>)
    requires Throughout(n, es)
    ensures Nearest(Play(n, es))
  {
    assert es[..|es|] == es;
    hide Nearest, Play;
  }

  lemma NoEvents(n: Node)
    ensures Play(n, []) == n && Unspoilt(n, []) && (Throughout(n, []) <==> Nearest(n))
  {
    hide Nearest, Spoils;
    var none: seq<Event> := [];
    assert none[..0] == none;
  }

  /** Over any activations that leave the target on the list: it is of fewest hops all along if and only if none
      of them is such a frame. */
  lemma {:induction false} NearestThroughoutIff(n: Node, es: seq<Event>)
    requires Nearest(n) && GatewaysSet(n.peers) && KeepTarget(n, es)
    ensures Throughout(n, es) <==> Unspoilt(n, es)
    ensures Throughout(n, es) ==> Nearest(Play(n, es)) && GatewaysSet(Play(n, es).peers)
    decreases |es|
  {
    hide Nearest, GatewaysSet, KeepsTarget, Spoils, After, Play, Throughout, Unspoilt, KeepTarget;
    if es != [] {
      var front, e := es[..|es| - 1], es[|es| - 1];
      assert es == front + [e];
      LastKeepTarget(n, front, e);
      LastUnspoilt(n, front, e);
      PlaySnoc(n, front, e);
      NearestThroughoutIff(n, front);
      if Throughout(n, front) {
        StaysNearestIff(Play(n, front), e);
        if Nearest(Play(n, es)) {
          AlsoThroughout(n, front, e);
        }
      }
      if Throughout(n, es) {
        LastThroughout(n, front, e);
        WholeThroughout(n, es);
      }
    } else {
      NoEvents(n);
    }
  }

  // ---------- two histories ----------

  function Announcement(origin: U32, prev: U32, id: U32, hops: U8): Frame {
    Frame(BROADCAST_ADDR, prev, origin, id, I_AM_GATEWAY, hops, Info(0, 0, []))
  }

  /** Hearing a broadcast that has not been heard before. */
  lemma HearsBroadcast(n0: Node, f: Frame, env: Env)
    requires f.body.Info? && f.dest == BROADCAST_ADDR && Accepts(n0, f)
    ensures var n := After(n0, Hear(f, env));
            && n.me == n0.me && n.seen == n0.seen + {f.id} && n.acks == n0.acks
            && n.routes == Learned(n0.me, n0.routes, f)
            && SameChoice(LearnInfo(n0, f).peers, n.peers)
  {
    hide LearnInfo, Learned, Transmit, Clean, Ledger, Closest, Without, UpdateRoute;
    var m := Awake(n0, env).(seen := n0.seen + {f.id});
    LearnRoutes(m, f);
    LearnOnlyLearns(m, f);
    SameLesson(n0, m, f);
    TransmitKeeps(Learn(m, f), f.(prev := Learn(m, f).me, hops := Inc8(f.hops)));
    BroadcastKeepsAcks(Learn(m, f), f.(prev := Learn(m, f).me, hops := Inc8(f.hops)));
  }

  lemma SameLesson(n: Node, m: Node, f: Frame)
    requires f.body.Info? && m.peers == n.peers && m.routes == n.routes
    ensures SameChoice(LearnInfo(n, f).peers, LearnInfo(m, f).peers)
  {
    InfoPeers(n, f);
    InfoPeers(m, f);
    hide LearnInfo, Closest, Without;
  }

  lemma BroadcastKeepsAcks(n: Node, f: Frame)
    requires f.dest == BROADCAST_ADDR
    ensures Transmit(n, f).acks == n.acks && Transmit(n, f).seen == n.seen
  {
  }

  /** A node boots and twice hears its neighbour 5 announce itself: it has a route of one hop to the
      gateway, yet no gateway is remembered, after the first announcement and after the second. */
  lemma FirstAnnouncementForgotten(env: Env)
    ensures var es := [Hear(Announcement(5, 5, 70, 0), env), Hear(Announcement(5, 5, 71, 0), env)];
            var n1, n2 := Play(Fresh(1, env), es[..1]), Play(Fresh(1, env), es);
            && n1.peers.gateways == n2.peers.gateways == [5]
            && 5 in n2.routes && n2.routes[5] == Route(5, 1)
            && n1.peers.closestGw == n2.peers.closestGw == 0
  {
    hide After, LearnInfo, Play;
    var f1, f2 := Announcement(5, 5, 70, 0), Announcement(5, 5, 71, 0);
    var n0 := Fresh(1, env);
    var n1 := After(n0, Hear(f1, env));
    HearsBroadcast(n0, f1, env);
    NewAnnouncement(n0, f1);
    HearsBroadcast(n1, f2, env);
    RepeatedAnnouncement(n1, f2);
    TwoEvents(n0, Hear(f1, env), Hear(f2, env));
  }

  lemma TwoEvents(n: Node, a: Event, b: Event)
    ensures Play(n, [a, b][..1]) == After(n, a) && Play(n, [a, b]) == After(After(n, a), b)
  {
    assert [a, b][..1] == [a] && [a][..0] == [];
    hide After;
  }

  /** A far gateway is remembered although a nearer one is known and routed: gateway 5 is heard over three
      hops, then gateway 6 next door. Messages for the uplink go to 5. */
  lemma NearerGatewayPassedOver(env: Env)
    ensures var n := Play(Fresh(1, env), [Hear(Announcement(5, 7, 70, 2), env), Hear(Announcement(6, 6, 71, 0), env)]);
            && n.peers.gateways == [5, 6] && GatewayTarget(n) == 5
            && 5 in n.routes && n.routes[5].hops == 3 && 6 in n.routes && n.routes[6].hops == 1
            && !FewestHops(n.routes, n.peers.gateways, GatewayTarget(n))
  {
    hide After, LearnInfo, Play, Closest;
    var f1, f2 := Announcement(5, 7, 70, 2), Announcement(6, 6, 71, 0);
    var n0 := Fresh(1, env);
    var n1 := After(n0, Hear(f1, env));
    HearsBroadcast(n0, f1, env);
    NewAnnouncement(n0, f1);
    assert n1.peers.gateways == [5];
    HearsBroadcast(n1, f2, env);
    NewAnnouncement(n1, f2);
    TwoEvents(n0, Hear(f1, env), Hear(f2, env));
    ScanOfTwo(n1.routes);
  }

  lemma ScanOfTwo(r: Routes)
    requires 5 in r && r[5].hops == 3 && 6 !in r
    ensures Closest(r, [5] + [6]) == (5, 3)
  {
    ClosestIsNearest(r, [5] + [6]);
    hide Closest;
  }
}
