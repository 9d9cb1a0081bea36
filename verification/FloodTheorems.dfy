/** Launching the broadcast, and what holds of every run that follows. */
module FloodTheorems {
  import Ordered
  import opened Packets
  import opened Nodes
  import opened Effects
  import opened Counting
  import opened Network
  import opened Flood

  // ---------- launching ----------

  /** Nobody has heard of the packet ID yet. */
  ghost predicate Unheard(n: Node, p: U32) {
    && Untouched(n, p) && p !in n.seen
    && Count(n.io.notes, Announces(p)) == 0 && Count(n.io.air, HasId(p)) == 0
  }

  ghost predicate Unlaunched(t: Topology, k: Packet, s: Net) {
    && Placed(t, s) && k.origin in s.nodes
    && (forall q | q in s.nodes :: Unheard(s.nodes[q], k.id) && Count(s.ran, HandledAt(q, k.id)) == 0)
    && (forall i | 0 <= i < |s.flying| :: s.flying[i].frame.id != k.id)
  }

  function LaunchFrame(k: Packet): Frame {
    Frame(BROADCAST_ADDR, k.origin, k.origin, k.id, k.flags, 0, Data(BROADCAST_ADDR, k.data))
  }

  ghost function Launch(k: Packet, env: Env): Label {
    Invoke(k.origin, CallData(BROADCAST_ADDR, k.data, k.id, k.flags), env)
  }

  ghost predicate Goes(k: Packet, n: Node, env: Env) {
    !Oversize(LaunchFrame(k).body) && env.accepts(n.io.offered)
  }

  lemma LaunchNode(k: Packet, n: Node, env: Env)
    requires Floodable(k) && n.me == k.origin && Unheard(n, k.id) && forall i: nat :: env.random(i) != k.id
    ensures var m := Awake(n, env);
            var r := SendData(m, BROADCAST_ADDR, k.data, k.id, k.flags);
            && r.io.air == n.io.air + (if Goes(k, n, env) then [LaunchFrame(k)] else [])
            && r.io.notes == n.io.notes && r.seen == n.seen && Untouched(r, k.id)
  {
    FloodableFlags(k);
    hide AsksAck, ClearEnc, Oversize;
    var m := Awake(n, env);
    assert OnAir(LaunchFrame(k)) == LaunchFrame(k);
    assert SendData(m, BROADCAST_ADDR, k.data, k.id, k.flags) == Transmit(m, LaunchFrame(k));
  }

  lemma UnheardFloodNode(k: Packet, q: U32, n: Node)
    requires Unheard(n, k.id)
    ensures FloodNode(k, q, n) && k.id !in n.seen
  {
  }

  lemma LaunchFloodNode(k: Packet, n: Node, env: Env)
    requires Floodable(k) && n.me == k.origin && Unheard(n, k.id) && forall i: nat :: env.random(i) != k.id
    ensures FloodNode(k, k.origin, SendData(Awake(n, env), BROADCAST_ADDR, k.data, k.id, k.flags))
  {
    LaunchNode(k, n, env);
    hide SendData, Untouched, Goes;
    CountOne(n.io.air, LaunchFrame(k), HasId(k.id));
    assert n.io.air + [] == n.io.air;
  }

  /** The node and the copies right after the launch. */
  lemma LaunchShape(t: Topology, k: Packet, s: Net, env: Env)
    requires Valid(t) && Floodable(k) && Unlaunched(t, k, s) && forall i: nat :: env.random(i) != k.id
    ensures var s' := Step(t, s, Launch(k, env));
            var fs := if Goes(k, s.nodes[k.origin], env) then [LaunchFrame(k)] else [];
            && s'.nodes.Keys == s.nodes.Keys && s'.ran == s.ran
            && FloodNode(k, k.origin, s'.nodes[k.origin]) && k.id !in s'.nodes[k.origin].seen
            && (forall q | q in s.nodes && q != k.origin :: s'.nodes[q] == s.nodes[q])
            && k.origin in t.nbrs
            && s'.flying == s.flying + Copies(t.nbrs[k.origin], fs)
  {
    hide Count;
    var l := Launch(k, env);
    var n := s.nodes[k.origin];
    StepShape(t, s, l);
    LaunchNode(k, n, env);
    LaunchFloodNode(k, n, env);
    var n' := Result(s, l);
    assert n' == SendData(Awake(n, env), BROADCAST_ADDR, k.data, k.id, k.flags);
    hide Step, Result, SendData, FloodNode, Goes, Behaves;
    assert NewFrames(n, n') == if Goes(k, n, env) then [LaunchFrame(k)] else [];
  }

  lemma OneHop(t: Topology, a: U32, b: U32)
    requires Valid(t) && Link(t, a, b)
    ensures Reached(t, a, b)
  {
    assert Link(t, b, a);
    assert Walk(t, b, b, 0);
    assert Walk(t, a, b, 1);
  }

  lemma PlacedKeys(t: Topology, s: Net)
    requires Placed(t, s)
    ensures s.nodes.Keys == t.nbrs.Keys
  {
  }

  lemma LaunchFlood(t: Topology, k: Packet, s: Net, env: Env)
    requires Valid(t) && Floodable(k) && Unlaunched(t, k, s) && forall i: nat :: env.random(i) != k.id
    ensures FloodState(t, k, Step(t, s, Launch(k, env)))
  {
    hide Count, Reached, FloodNode, Goes, Own, FloodCopy, Step, LaunchFrame, Unheard, Valid, Floodable;
    var l := Launch(k, env);
    LaunchShape(t, k, s, env);
    StepPlaced(t, s, l);
    var s' := Step(t, s, l);
    PlacedKeys(t, s');
    hide Placed;
    var fs := if Goes(k, s.nodes[k.origin], env) then [LaunchFrame(k)] else [];
    forall q | q in s'.nodes
      ensures FloodNode(k, q, s'.nodes[q]) && k.id !in s'.nodes[q].seen
    {
      if q != k.origin {
        UnheardFloodNode(k, q, s.nodes[q]);
      }
    }
    forall i | 0 <= i < |s'.flying| ensures FloodCopy(t, k, s'.flying[i]) {
      if i < |s.flying| {
        OtherCopy(t, k, s.flying[i]);
      } else {
        LaunchedCopy(t, k, fs, i - |s.flying|);
      }
    }
  }

  lemma OtherCopy(t: Topology, k: Packet, c: Copy)
    requires c.frame.id != k.id
    ensures FloodCopy(t, k, c)
  {
  }

  lemma LaunchedCopy(t: Topology, k: Packet, fs: seq<Frame>, j: nat)
    requires Valid(t) && k.origin in t.nbrs && j < |Copies(t.nbrs[k.origin], fs)| && forall f | f in fs :: f == LaunchFrame(k)
    ensures FloodCopy(t, k, Copies(t.nbrs[k.origin], fs)[j])
  {
    CopiesHeard(t.nbrs[k.origin], fs, j);
    OneHop(t, k.origin, Copies(t.nbrs[k.origin], fs)[j].at);
    hide Copies, Reached;
  }

  lemma LaunchFuel(t: Topology, k: Packet, s: Net, env: Env)
    requires Valid(t) && Floodable(k) && Unlaunched(t, k, s) && forall i: nat :: env.random(i) != k.id
    ensures Fuel(t, Step(t, s, Launch(k, env)), k.id) <= |t.nbrs| * (|t.nbrs| + 1) + |t.nbrs|
  {
    hide FloodNode, Goes, Own, Count, Fuel, Unheard, Link;
    var s' := Step(t, s, Launch(k, env));
    LaunchShape(t, k, s, env);
    hide Step;
    FirstFuel(t, s', s.flying, k.origin, if Goes(k, s.nodes[k.origin], env) then [LaunchFrame(k)] else [], k.id);
  }

  /** Fuel when at most one frame with this ID has just left one node and no other copy is around. */
  lemma FirstFuel(t: Topology, s: Net, before: seq<Copy>, q: U32, fs: seq<Frame>, p: U32)
    requires Valid(t) && q in t.nbrs && s.nodes.Keys == t.nbrs.Keys && |fs| <= 1
    requires forall i | 0 <= i < |before| :: before[i].frame.id != p
    requires s.flying == before + Copies(t.nbrs[q], fs)
    ensures Fuel(t, s, p) <= |t.nbrs| * (|t.nbrs| + 1) + |t.nbrs|
  {
    hide Unseen, Copies, Count, Valid, Fuel;
    DegreeBound(t, q);
    LaunchCopies(before, t.nbrs[q], fs, p);
    UnseenBound(t, s, p);
    FuelBounded(t, s, p, |t.nbrs[q]|, Count(fs, HasId(p)));
  }

  lemma FuelBounded(t: Topology, s: Net, p: U32, degree: nat, aired: nat)
    requires Unseen(s, p) <= |t.nbrs| && degree <= |t.nbrs| && aired <= 1 && Count(s.flying, CopyOf(p)) <= degree * aired
    ensures Fuel(t, s, p) <= |t.nbrs| * (|t.nbrs| + 1) + |t.nbrs|
  {
    hide Unseen, Count;
    LaunchArithmetic(Unseen(s, p), |t.nbrs|, degree, aired, Count(s.flying, CopyOf(p)));
  }

  lemma LaunchCopies(flying: seq<Copy>, nbrs: seq<U32>, fs: seq<Frame>, p: U32)
    requires forall i | 0 <= i < |flying| :: flying[i].frame.id != p
    requires |fs| <= 1
    ensures Count(fs, HasId(p)) <= 1
    ensures Count(flying + Copies(nbrs, fs), CopyOf(p)) <= |nbrs| * Count(fs, HasId(p))
  {
    CountAppend(flying, Copies(nbrs, fs), CopyOf(p));
    CountNone(flying, CopyOf(p));
    CopiesCount(nbrs, fs, p);
    CountBound(fs, HasId(p));
    hide Count, Copies;
  }

  lemma UnseenBound(t: Topology, s: Net, p: U32)
    requires s.nodes.Keys == t.nbrs.Keys
    ensures Unseen(s, p) <= |t.nbrs|
  {
    Subset(UnseenBy(s, p), t.nbrs.Keys);
  }

  lemma {:induction false} Subset(a: set<U32>, b: set<U32>)
    requires a <= b
    ensures |a| <= |b|
    decreases |a|
  {
    if a != {} {
      var x :| x in a;
      Subset(a - {x}, b - {x});
    }
  }

  lemma LaunchArithmetic(unseen: nat, n: nat, degree: nat, aired: nat, copies: nat)
    requires unseen <= n && degree <= n && aired <= 1 && copies <= degree * aired
    ensures unseen * (n + 1) + copies <= n * (n + 1) + n
  {
    assert unseen * (n + 1) <= n * (n + 1);
    assert degree * aired <= n;
  }

  // ---------- coverage ----------

  /** Node m has the packet, or a copy of it is on the way to m. */
  ghost predicate InHand(s: Net, m: U32, p: U32) {
    m in s.nodes && (p in s.nodes[m].seen || exists j :: 0 <= j < |s.flying| && HandledAt(m, p)(s.flying[j]))
  }

  /** Whoever sent the packet has all its neighbours in hand. */
  ghost predicate Covered(t: Topology, k: Packet, s: Net) {
    forall q, m: U32 | q in s.nodes && (q == k.origin || k.id in s.nodes[q].seen) && Link(t, q, m) :: InHand(s, m, k.id)
  }

  /** The radio queue takes the first frame the node offers in this step. */
  predicate Takes(s: Net, l: Label)
    requires l.Deliver? && l.i < |s.flying| && s.flying[l.i].at in s.nodes
  {
    l.env.accepts(s.nodes[s.flying[l.i].at].io.offered)
  }

  /** The step loses no copy of the packet, and the radio queue takes it. */
  ghost predicate Lossless(s: Net, l: Label, p: U32) {
    && !(l.Lose? && Spends(s, l, p))
    && (DeliversFlood(s, l, p) && s.flying[l.i].at in s.nodes ==> Takes(s, l))
  }

  lemma {:induction false} CopiesComplete(nbrs: seq<U32>, fs: seq<Frame>, f: Frame, m: U32)
    requires f in fs && m in nbrs
    ensures Copy(m, f) in Copies(nbrs, fs)
    decreases |fs|
  {
    var k := |fs| - 1;
    if fs[k] == f {
      var i :| 0 <= i < |nbrs| && nbrs[i] == m;
      assert Heard(nbrs, f)[i] == Copy(m, f);
    } else {
      assert f in fs[..k];
      CopiesComplete(nbrs, fs[..k], f, m);
    }
  }

  lemma InHandKept(t: Topology, k: Packet, s: Net, l: Label, m: U32)
    requires Valid(t) && Floodable(k) && FloodState(t, k, s) && Enabled(s, l) && FreshInputs(l, k.id)
    requires Lossless(s, l, k.id) && InHand(s, m, k.id)
    ensures InHand(Step(t, s, l), m, k.id)
  {
    hide Step, FloodNode, FloodCopy, Reached, Count, Consumed;
    StepFloodNodes(t, k, s, l, m);
    if k.id !in s.nodes[m].seen {
      var j :| 0 <= j < |s.flying| && HandledAt(m, k.id)(s.flying[j]);
      if l.Deliver? && l.i == j {
      } else {
        ConsumedKeeps(s, l, j);
        StepKeepsCopies(t, s, l, s.flying[j]);
      }
    }
  }

  /** A frame q has just sent is on its way to each of its neighbours. */
  lemma SentInHand(t: Topology, k: Packet, s: Net, kept: seq<Copy>, q: U32, g: Frame, m: U32)
    requires Valid(t) && s.nodes.Keys == t.nbrs.Keys && Link(t, q, m) && g.id == k.id
    requires s.flying == kept + Copies(t.nbrs[q], [g])
    ensures InHand(s, m, k.id)
  {
    assert g in [g];
    CopiesComplete(t.nbrs[q], [g], g, m);
    var j :| 0 <= j < |Copies(t.nbrs[q], [g])| && Copies(t.nbrs[q], [g])[j] == Copy(m, g);
    assert s.flying[|kept| + j] == Copy(m, g);
    assert HandledAt(m, k.id)(s.flying[|kept| + j]);
    assert Link(t, m, q);
  }

  /** A first receipt puts a copy on the way to every neighbour. */
  lemma FirstCovers(t: Topology, k: Packet, s: Net, l: Label, m: U32)
    requires Valid(t) && Floodable(k) && FloodState(t, k, s) && Enabled(s, l) && FreshInputs(l, k.id)
    requires DeliversFlood(s, l, k.id) && Takes(s, l) && !Oversize(LaunchFrame(k).body)
    requires k.id !in s.nodes[Actor(s, l)].seen && Link(t, Actor(s, l), m)
    ensures InHand(Step(t, s, l), m, k.id)
  {
    hide Reached, Count, Behaves, Oversize, Untouched, FloodNode, Step, Result;
    var q, n := Actor(s, l), Before(s, l);
    AwakeFloodNode(k, q, s.nodes[q], l.env);
    FloodNodeUntouched(k, q, n);
    FirstAirs(t, k, s, l);
    StepShape(t, s, l);
    assert FloodCopy(t, k, s.flying[l.i]);
    var g := Relayed(k, n, s.flying[l.i].frame);
    var n' := Result(s, l);
    hide FloodCopy;
    assert NewFrames(s.nodes[q], n') == [g];
    SentInHand(t, k, Step(t, s, l), Consumed(s, l), q, g, m);
  }

  lemma StepCovered(t: Topology, k: Packet, s: Net, l: Label)
    requires Valid(t) && Floodable(k) && FloodState(t, k, s) && Enabled(s, l) && FreshInputs(l, k.id)
    requires Lossless(s, l, k.id) && !Oversize(LaunchFrame(k).body) && Covered(t, k, s)
    ensures Covered(t, k, Step(t, s, l))
  {
    hide Step, FloodNode, FloodCopy, Reached, Count, InHand, Oversize, Own;
    var s' := Step(t, s, l);
    StepPlaced(t, s, l);
    forall q, m: U32 | q in s'.nodes && (q == k.origin || k.id in s'.nodes[q].seen) && Link(t, q, m)
      ensures InHand(s', m, k.id)
    {
      StepFloodNodes(t, k, s, l, q);
      if q == k.origin || k.id in s.nodes[q].seen {
        InHandKept(t, k, s, l, m);
      } else {
        FirstCovers(t, k, s, l, m);
      }
    }
  }

  lemma LaunchCovered(t: Topology, k: Packet, s: Net, env: Env)
    requires Valid(t) && Floodable(k) && Unlaunched(t, k, s) && forall i: nat :: env.random(i) != k.id
    requires Goes(k, s.nodes[k.origin], env)
    ensures Covered(t, k, Step(t, s, Launch(k, env)))
  {
    hide FloodNode, Goes, Own, Count;
    var s' := Step(t, s, Launch(k, env));
    LaunchShape(t, k, s, env);
    hide Step;
    forall q, m: U32 | q in s'.nodes && (q == k.origin || k.id in s'.nodes[q].seen) && Link(t, q, m)
      ensures InHand(s', m, k.id)
    {
      assert q == k.origin;
      SentInHand(t, k, s', s.flying, q, LaunchFrame(k), m);
    }
  }

  /** With no copy left in flight, whatever is reachable has been reached. */
  lemma {:induction false} QuietReach(t: Topology, k: Packet, s: Net, a: U32, q: U32, m: nat)
    requires Valid(t) && Placed(t, s) && Covered(t, k, s)
    requires forall i | 0 <= i < |s.flying| :: s.flying[i].frame.id != k.id
    requires a in s.nodes && (a == k.origin || k.id in s.nodes[a].seen)
    requires m >= 1 && Walk(t, a, q, m)
    ensures q in s.nodes && k.id in s.nodes[q].seen
    decreases m
  {
    var b: U32 :| Link(t, a, b) && Walk(t, b, q, m - 1);
    assert InHand(s, b, k.id);
    if m > 1 {
      QuietReach(t, k, s, b, q, m - 1);
    }
  }

  // ---------- whole runs ----------

  /** A run that launches the packet first and never reuses its ID. */
  ghost predicate FloodRun(t: Topology, k: Packet, ss: seq<Net>, ls: seq<Label>) {
    && Valid(t) && Floodable(k) && IsRun(t, ss, ls) && |ls| > 0
    && Unlaunched(t, k, ss[0]) && ls[0].Invoke? && ls[0] == Launch(k, ls[0].env)
    && (forall i: nat :: ls[0].env.random(i) != k.id)
    && (forall j | 1 <= j < |ls| :: FreshInputs(ls[j], k.id))
  }

  lemma RunStep(t: Topology, k: Packet, ss: seq<Net>, ls: seq<Label>, i: nat)
    requires FloodRun(t, k, ss, ls) && i < |ls|
    ensures |ss| == |ls| + 1 && Enabled(ss[i], ls[i]) && ss[i + 1] == Step(t, ss[i], ls[i])
    ensures i > 0 ==> FreshInputs(ls[i], k.id)
  {
    hide Step, Enabled, FreshInputs, Unlaunched;
  }

  lemma {:induction false} RunFlood(t: Topology, k: Packet, ss: seq<Net>, ls: seq<Label>, i: nat)
    requires FloodRun(t, k, ss, ls) && 1 <= i < |ss|
    ensures FloodState(t, k, ss[i])
  {
    hide Step, FreshInputs, FloodState, Enabled;
    RunStep(t, k, ss, ls, i - 1);
    if i == 1 {
      LaunchFlood(t, k, ss[0], ls[0].env);
    } else {
      RunFlood(t, k, ss, ls, i - 1);
      hide FloodRun, Unlaunched;
      StepFlood(t, k, ss[i - 1], ls[i - 1]);
    }
  }

  /** At most once: in every state after the launch each node has handled the packet at most once,
      has told its client exactly as often, and has sent it at most once, the origin at most twice. */
  lemma HandledAtMostOnce(t: Topology, k: Packet, ss: seq<Net>, ls: seq<Label>, i: nat, q: U32)
    requires FloodRun(t, k, ss, ls) && 1 <= i < |ss| && q in ss[i].nodes
    ensures var n := ss[i].nodes[q];
            && Count(ss[i].ran, HandledAt(q, k.id)) <= 1
            && Count(n.io.notes, Announces(k.id)) == Count(ss[i].ran, HandledAt(q, k.id))
            && Count(n.io.air, HasId(k.id)) <= Count(ss[i].ran, HandledAt(q, k.id)) + if q == k.origin then 1 else 0
  {
    hide FloodRun;
    RunFlood(t, k, ss, ls, i);
    assert FloodNode(k, q, ss[i].nodes[q]);
  }

  /** How often the nodes of qs have sent the packet. */
  ghost function Sends(s: Net, qs: seq<U32>, p: U32): nat
    requires forall i | 0 <= i < |qs| :: qs[i] in s.nodes
    decreases |qs|
  {
    if qs == [] then 0
    else Sends(s, qs[..|qs| - 1], p) + Count(s.nodes[qs[|qs| - 1]].io.air, HasId(p))
  }

  lemma {:induction false} SendsBound(t: Topology, k: Packet, ss: seq<Net>, ls: seq<Label>, i: nat, qs: seq<U32>)
    requires FloodRun(t, k, ss, ls) && 1 <= i < |ss|
    requires forall j | 0 <= j < |qs| :: qs[j] in ss[i].nodes
    requires forall a, b | 0 <= a < b < |qs| :: qs[a] != qs[b]
    ensures Sends(ss[i], qs, k.id) <= |qs| + if k.origin in qs then 1 else 0
    decreases |qs|
  {
    hide FloodRun, Count;
    if qs != [] {
      var j := |qs| - 1;
      SendsBound(t, k, ss, ls, i, qs[..j]);
      HandledAtMostOnce(t, k, ss, ls, i, qs[j]);
      assert k.origin in qs <==> k.origin in qs[..j] || k.origin == qs[j];
      assert qs[j] !in qs[..j];
    }
  }

  /** In an N-node network the packet is sent at most N+1 times in all. */
  lemma SentAtMostNPlusOne(t: Topology, k: Packet, ss: seq<Net>, ls: seq<Label>, i: nat)
    requires FloodRun(t, k, ss, ls) && 1 <= i < |ss|
    ensures var all := Ordered.Ascending(ss[i].nodes.Keys);
            && (forall j | 0 <= j < |all| :: all[j] in ss[i].nodes) && |all| == |t.nbrs|
            && Sends(ss[i], all, k.id) <= |t.nbrs| + 1
  {
    hide FloodRun;
    Ordered.AscendingIsSorted(ss[i].nodes.Keys);
    RunFlood(t, k, ss, ls, i);
    var all := Ordered.Ascending(ss[i].nodes.Keys);
    forall j | 0 <= j < |all| ensures all[j] in ss[i].nodes {
      assert all[j] in all;
    }
    SendsBound(t, k, ss, ls, i, all);
  }

  lemma LaunchSpendsNothing(ss: seq<Net>, ls: seq<Label>, p: U32)
    requires |ss| > |ls| > 0 && ls[0].Invoke?
    ensures Spendings(ss, ls, p, 1) == 0
  {
  }

  /** The flood dies out: however long the run, copies of the packet are delivered or lost
      at most N(N+1)+N times. */
  lemma {:induction false} FloodDiesOut(t: Topology, k: Packet, ss: seq<Net>, ls: seq<Label>, i: nat)
    requires FloodRun(t, k, ss, ls) && 1 <= i < |ss| && |ss| == |ls| + 1
    ensures Spendings(ss, ls, k.id, i) + Fuel(t, ss[i], k.id) <= |t.nbrs| * (|t.nbrs| + 1) + |t.nbrs|
  {
    hide Fuel, Spends, Unlaunched, FloodState, FreshInputs, Enabled, Step;
    RunStep(t, k, ss, ls, i - 1);
    if i == 1 {
      LaunchFuel(t, k, ss[0], ls[0].env);
      LaunchSpendsNothing(ss, ls, k.id);
    } else {
      FloodDiesOut(t, k, ss, ls, i - 1);
      RunFlood(t, k, ss, ls, i - 1);
      hide FloodRun;
      StepFuel(t, k, ss[i - 1], ls[i - 1]);
    }
  }

  ghost predicate LosslessRun(t: Topology, k: Packet, ss: seq<Net>, ls: seq<Label>) {
    && FloodRun(t, k, ss, ls) && Goes(k, ss[0].nodes[k.origin], ls[0].env)
    && forall j | 1 <= j < |ls| :: Lossless(ss[j], ls[j], k.id)
  }

  lemma LosslessStep(t: Topology, k: Packet, ss: seq<Net>, ls: seq<Label>, i: nat)
    requires LosslessRun(t, k, ss, ls) && 1 <= i < |ls|
    ensures FloodRun(t, k, ss, ls) && Lossless(ss[i], ls[i], k.id)
    ensures !Oversize(LaunchFrame(k).body)
  {
    hide Step, Enabled, FreshInputs, Unlaunched, Lossless;
  }

  lemma {:induction false} RunCovered(t: Topology, k: Packet, ss: seq<Net>, ls: seq<Label>, i: nat)
    requires LosslessRun(t, k, ss, ls) && 1 <= i < |ss|
    ensures Covered(t, k, ss[i])
  {
    if i == 1 {
      FloodRunBasics(t, k, ss, ls);
      hide FloodRun, Lossless, Covered;
      RunStep(t, k, ss, ls, 0);
      LaunchCovered(t, k, ss[0], ls[0].env);
    } else {
      hide FloodRun, Lossless, Covered, Step, FreshInputs, FloodState;
      RunCovered(t, k, ss, ls, i - 1);
      RunFlood(t, k, ss, ls, i - 1);
      FloodRunBasics(t, k, ss, ls);
      LosslessStep(t, k, ss, ls, i - 1);
      RunStep(t, k, ss, ls, i - 1);
      StepCovered(t, k, ss[i - 1], ls[i - 1]);
    }
  }

  lemma FloodRunBasics(t: Topology, k: Packet, ss: seq<Net>, ls: seq<Label>)
    requires FloodRun(t, k, ss, ls)
    ensures |ss| == |ls| + 1 && |ls| > 0 && ls[0].Invoke?
    ensures Valid(t) && Floodable(k) && Unlaunched(t, k, ss[0]) && ls[0] == Launch(k, ls[0].env)
    ensures forall i: nat :: ls[0].env.random(i) != k.id
  {
    hide Step, Enabled, FreshInputs, Unlaunched;
  }

  /** Coverage: if no copy is lost, then once none is in flight exactly the nodes joined to the
      origin by at least one link have handled the packet, and each told its client exactly once. */
  lemma FloodCovers(t: Topology, k: Packet, ss: seq<Net>, ls: seq<Label>, i: nat, q: U32)
    requires LosslessRun(t, k, ss, ls) && 1 <= i < |ss| && q in ss[i].nodes
    requires forall j | 0 <= j < |ss[i].flying| :: ss[i].flying[j].frame.id != k.id
    ensures Count(ss[i].ran, HandledAt(q, k.id)) == 1 <==> Reached(t, k.origin, q)
    ensures Count(ss[i].nodes[q].io.notes, Announces(k.id)) == if Reached(t, k.origin, q) then 1 else 0
  {
    RunCovered(t, k, ss, ls, i);
    RunFlood(t, k, ss, ls, i);
    FloodRunBasics(t, k, ss, ls);
    hide FloodRun, LosslessRun, Covered, Count;
    assert FloodNode(k, q, ss[i].nodes[q]);
    if Reached(t, k.origin, q) {
      var m: nat :| m >= 1 && Walk(t, k.origin, q, m);
      WalkEndsInside(t, k.origin, q, m);
      QuietReach(t, k, ss[i], k.origin, q, m);
    }
  }
}
