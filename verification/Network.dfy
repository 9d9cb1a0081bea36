/** The mesh: nodes, a fixed radio topology, and frame copies in flight. */
module Network {
  import Ordered
  import opened Packets
  import opened Sessions
  import opened Nodes
  import opened Effects
  import opened AckLedger

  // ---------- radio topology ----------

  /** Who hears whom, as adjacency lists. */
  datatype Topology = Topology(nbrs: map<U32, seq<U32>>)

  predicate Link(t: Topology, a: U32, b: U32) {
    a in t.nbrs && b in t.nbrs[a]
  }

  /** Node IDs are neither 0 nor the broadcast address, links are symmetric,
      and no node hears itself. */
  ghost predicate Valid(t: Topology) {
    && 0 !in t.nbrs && BROADCAST_ADDR !in t.nbrs
    && (forall a: U32, b: U32 | Link(t, a, b) :: Link(t, b, a) && a != b)
    && (forall a, i, j | a in t.nbrs && 0 <= i < j < |t.nbrs[a]| :: t.nbrs[a][i] != t.nbrs[a][j])
  }

  /** A walk of exactly k links. */
  ghost predicate Walk(t: Topology, a: U32, b: U32, k: nat)
    decreases k
  {
    if k == 0 then a == b && a in t.nbrs else exists c: U32 :: Link(t, a, c) && Walk(t, c, b, k - 1)
  }

  lemma {:induction false} WalkSnoc(t: Topology, a: U32, b: U32, c: U32, k: nat)
    requires Valid(t) && Walk(t, a, b, k) && Link(t, b, c)
    ensures Walk(t, a, c, k + 1)
    decreases k
  {
    if k == 0 {
      assert Link(t, c, b);
      assert Walk(t, c, c, 0);
    } else {
      var x: U32 :| Link(t, a, x) && Walk(t, x, b, k - 1);
      WalkSnoc(t, x, b, c, k - 1);
    }
  }

  lemma {:induction false} WalkReverse(t: Topology, a: U32, b: U32, k: nat)
    requires Valid(t) && Walk(t, a, b, k)
    ensures Walk(t, b, a, k)
    decreases k
  {
    if k > 0 {
      var x: U32 :| Link(t, a, x) && Walk(t, x, b, k - 1);
      WalkReverse(t, x, b, k - 1);
      WalkSnoc(t, b, x, a, k - 1);
    }
  }

  lemma {:induction false} WalkEndsInside(t: Topology, a: U32, b: U32, k: nat)
    requires Valid(t) && Walk(t, a, b, k)
    ensures a in t.nbrs && b in t.nbrs
    decreases k
  {
    if k > 0 {
      var x: U32 :| Link(t, a, x) && Walk(t, x, b, k - 1);
      WalkEndsInside(t, x, b, k - 1);
    }
  }

  // ---------- network state ----------

  /** One frame on its way to one hearing neighbour. */
  datatype Copy = Copy(at: U32, frame: Frame)

  /** Nodes, copies in flight, and the log of copies that reached a handler. */
  datatype Net = Net(nodes: map<U32, Node>, flying: seq<Copy>, ran: seq<Copy>)

  datatype ApiCall =
    | CallData(dest: U32, data: seq<U8>, id: U32, flags: U8)
    | CallUserMsg(sender: U32, to: U32, message: seq<U8>, id: U32, flags: U8)
    | CallMove(user: U32, oldNode: U32)
    | CallBeacon
    | CallLogin(user: U32, handle: U16)
    | CallLogout(user: U32)
    | CallDisconnect(handle: U16)
    | CallPopInbox(user: U32)

  datatype Label =
    | Deliver(i: nat, env: Env)
    | Lose(i: nat)
    | Invoke(q: U32, call: ApiCall, env: Env)
    | AckTimer(q: U32, env: Env, garbled: U32 -> U32)

  ghost function Api(n: Node, call: ApiCall): Node {
    match call
    case CallData(dest, data, id, flags) => SendData(n, dest, data, id, flags)
    case CallUserMsg(sender, to, message, id, flags) => SendUserMessage(n, sender, to, message, id, flags)
    case CallMove(user, oldNode) => SendMoveUserReq(n, user, oldNode)
    case CallBeacon => SendBroadcastInfo(n)
    case CallLogin(user, handle) => n.(users := AddOrRefresh(n.users, user, handle))
    case CallLogout(user) => n.(users := Remove(n.users, user))
    case CallDisconnect(handle) => n.(users := Disconnect(n.users, handle))
    case CallPopInbox(user) => n.(users := PopInbox(n.users, user))
  }

  ghost function Awake(n: Node, env: Env): Node {
    n.(io := n.io.(env := env))
  }

  function Heard(nbrs: seq<U32>, f: Frame): seq<Copy> {
    seq(|nbrs|, i requires 0 <= i < |nbrs| => Copy(nbrs[i], f))
  }

  /** One copy of each frame for each neighbour. */
  function Copies(nbrs: seq<U32>, fs: seq<Frame>): seq<Copy>
    decreases |fs|
  {
    if fs == [] then [] else Copies(nbrs, fs[..|fs| - 1]) + Heard(nbrs, fs[|fs| - 1])
  }

  ghost function NewFrames(n: Node, n': Node): seq<Frame> {
    if |n.io.air| <= |n'.io.air| then n'.io.air[|n.io.air|..] else []
  }

  /** Node q has become n'; what it put on the air is now in flight. */
  ghost function Settle(t: Topology, s: Net, q: U32, n': Node): Net
    requires q in s.nodes
  {
    if q !in t.nbrs then s.(nodes := s.nodes[q := n'])
    else s.(nodes := s.nodes[q := n'], flying := s.flying + Copies(t.nbrs[q], NewFrames(s.nodes[q], n')))
  }

  function Removed<T>(s: seq<T>, i: nat): seq<T>
    requires i < |s|
  {
    s[..i] + s[i + 1..]
  }

  /** Nodes sit where the topology says, remembered frames are their own and
      keyed by ID, and every copy in flight is heard over a link. */
  ghost predicate Placed(t: Topology, s: Net) {
    && s.nodes.Keys == t.nbrs.Keys
    && (forall q | q in s.nodes :: Own(s.nodes[q], q))
    && (forall i | 0 <= i < |s.flying| :: Link(t, s.flying[i].frame.prev, s.flying[i].at) && s.flying[i].at in s.nodes)
  }

  ghost predicate Own(n: Node, q: U32) {
    n.me == q && forall k | k in n.acks :: n.acks[k].frame.prev == q && n.acks[k].frame.id == k
  }

  ghost predicate Enabled(s: Net, l: Label) {
    match l
    case Deliver(i, _) => i < |s.flying| && s.flying[i].at in s.nodes
    case Lose(i) => i < |s.flying|
    case Invoke(q, _, _) => q in s.nodes
    case AckTimer(q, _, _) => q in s.nodes
  }

  ghost function Step(t: Topology, s: Net, l: Label): Net
    requires Enabled(s, l)
  {
    match l
    case Deliver(i, env) =>
      var c := s.flying[i];
      var n := Awake(s.nodes[c.at], env);
      var log := if Accepts(n, c.frame) then s.ran + [c] else s.ran;
      Settle(t, s.(flying := Removed(s.flying, i), ran := log), c.at, HandlePacket(n, c.frame))
    case Lose(i) => s.(flying := Removed(s.flying, i))
    case Invoke(q, call, env) => Settle(t, s, q, Api(Awake(s.nodes[q], env), call))
    case AckTimer(q, env, garbled) => Settle(t, s, q, CleanupAcks(Awake(s.nodes[q], env), garbled))
  }

  /** A run: a first state, then one labelled step after another. */
  ghost predicate IsRun(t: Topology, ss: seq<Net>, ls: seq<Label>) {
    && |ss| == |ls| + 1
    && (forall i | 0 <= i < |ls| :: Enabled(ss[i], ls[i]) && ss[i + 1] == Step(t, ss[i], ls[i]))
  }

  /** A run from empty tables. */
  ghost predicate IsHistory(t: Topology, ss: seq<Net>, ls: seq<Label>) {
    IsRun(t, ss, ls) && exists env :: ss[0] == Start(t, env)
  }

  ghost function Start(t: Topology, env: Env): Net {
    Net(map q | q in t.nbrs :: Fresh(q, env), [], [])
  }

  lemma {:induction false} CopiesHeard(nbrs: seq<U32>, fs: seq<Frame>, i: nat)
    requires i < |Copies(nbrs, fs)|
    ensures Copies(nbrs, fs)[i].at in nbrs && Copies(nbrs, fs)[i].frame in fs
    decreases |fs|
  {
    var k := |fs| - 1;
    var before := Copies(nbrs, fs[..k]);
    if i < |before| {
      CopiesHeard(nbrs, fs[..k], i);
      assert fs[..k] <= fs;
    } else {
      assert Copies(nbrs, fs)[i] == Heard(nbrs, fs[k])[i - |before|];
    }
  }

  // ---------- what one activation does to its node ----------

  /** The activation at a node: the causes, the frames it puts on the air
      (justified, or a retransmission), and what it remembers. */
  ghost predicate Behaves(c: Ctx, n: Node, n': Node) {
    && n'.me == n.me == c.me && n'.routes == c.routes
    && n.io.air <= n'.io.air
    && (forall i | |n.io.air| <= i < |n'.io.air| :: Just(c, n'.io.air[i]) || Retry(n, n'.io.air[i]))
    && (forall k | k in n'.acks ::
          || (k in n.acks && n'.acks[k].frame == n.acks[k].frame)
          || (n'.acks[k].frame.id == k && Just(c, n'.acks[k].frame)))
  }

  ghost predicate Retry(n: Node, f: Frame) {
    exists k :: k in n.acks && n.acks[k].frame == f
  }

  lemma EmitsBehaves(c: Ctx, n: Node, m: Node, n': Node)
    requires m.me == n.me && m.io.air == n.io.air && m.acks == n.acks
    requires Emits(c, m, n')
    ensures Behaves(c, n, n')
  {
    hide Undisturbed, Ledger, Just, Continues, Mild;
    forall i | |n.io.air| <= i < |n'.io.air|
      ensures Just(c, n'.io.air[i])
    {
      assert Fine(c, m, n'.io.air[i]);
    }
    forall k | k in n'.acks
      ensures || (k in n.acks && n'.acks[k].frame == n.acks[k].frame)
              || (n'.acks[k].frame.id == k && Just(c, n'.acks[k].frame))
    {
    }
  }

  /** The routing table after learning from a frame. */
  function Learned(me: U32, r: Routes, f: Frame): Routes {
    match f.body
    case Rreq(_) => Updated(Updated(r, f.origin, f.prev, Inc8(f.hops)), f.prev, f.prev, 1)
    case Rrep(t, h) => Updated(Updated(r, t, f.prev, Inc8(h)), f.prev, f.prev, 1)
    case Rerr(_, broken, dest, _) =>
      if broken != f.body.reporter then Invalidated(r, broken, dest) else r - {dest}
    case Info(_, _, _) =>
      var r1 := Updated(r, f.prev, f.prev, 1);
      if f.origin != me then Updated(r1, f.origin, f.prev, Inc8(f.hops)) else r1
    case Ureq(_) => Updated(Updated(r, f.prev, f.prev, 1), f.origin, f.prev, Inc8(f.hops))
    case Urep(d, _, _) => Updated(Updated(r, f.prev, f.prev, 1), d, f.prev, Inc8(f.hops))
    case Uerr(_, _, _) => Updated(r, f.prev, f.prev, 1)
    case MoveUser(_, _) => Updated(r, f.prev, f.prev, 1)
    case _ => r
  }

  /** What a frame tells its receivers: a node, and how many hops its sender is from it. */
  datatype Lesson = Silent | Lesson(node: U32, hops: U8)

  function LessonOf(f: Frame): Lesson {
    match f.body
    case Rreq(_) => Lesson(f.origin, f.hops)
    case Ureq(_) => Lesson(f.origin, f.hops)
    case Info(_, _, _) => Lesson(f.origin, f.hops)
    case Rrep(d, h) => Lesson(d, h)
    case Urep(d, _, _) => Lesson(d, f.hops)
    case _ => Silent
  }

  lemma LearnRoutes(n: Node, f: Frame)
    ensures Learn(n, f).routes == Learned(n.me, n.routes, f)
  {
    hide Updated, Invalidated;
    if f.body.Info? {
      LearnInfoRoutes(n, f);
    }
  }

  lemma LearnInfoRoutes(n: Node, f: Frame)
    requires f.body.Info?
    ensures LearnInfo(n, f).routes == Learned(n.me, n.routes, f)
  {
    hide Updated, Closest, Claim, Unclaim, Without;
  }

  /** The context in which node n handles frame f. */
  ghost function Context(n: Node, f: Frame): Ctx {
    if Accepts(n, f) then Ctx(n.me, Learned(n.me, n.routes, f), Received(f), 0, 0) else Ctx(n.me, n.routes, Call, 0, 0)
  }

  lemma HandlePacketBehaves(n: Node, f: Frame)
    ensures Behaves(Context(n, f), n, HandlePacket(n, f))
  {
    hide Dispatch, Learn, Learned;
    var m := n.(seen := n.seen + {f.id});
    if Accepts(n, f) && f.body.Ack? {
      AckBehaves(n, f);
    } else if Accepts(n, f) {
      LearnRoutes(m, f);
      DispatchEmits(m, f, 0);
      LearnOnlyLearns(m, f);
      EmitsBehaves(Context(n, f), n, Learn(m, f), Dispatch(m, f));
    }
  }

  lemma AckBehaves(n: Node, f: Frame)
    requires f.body.Ack? && Accepts(n, f)
    ensures Behaves(Context(n, f), n, HandlePacket(n, f))
  {
  }

  lemma ApiBehaves(n: Node, call: ApiCall)
    ensures Behaves(Ctx(n.me, n.routes, Call, 0, 0), n, Api(n, call))
  {
    var c := Ctx(n.me, n.routes, Call, if call.CallData? || call.CallUserMsg? then OtherThan(call.id) else 0, 0);
    ApiEmits(c, n, call);
    EmitsBehaves(c, n, n, Api(n, call));
    hide Api;
    forall e: Frame
      ensures Just(c, e) == Just(c.(watch := 0), e)
    {
    }
  }

  function OtherThan(id: U32): U32 {
    if id == 0 then 1 else 0
  }

  lemma ApiEmits(c: Ctx, n: Node, call: ApiCall)
    requires Steady(c, n, n) && c.cause.Call?
    requires (call.CallData? || call.CallUserMsg?) && Undisturbed(c, n) ==> call.id != c.watch
    ensures Emits(c, n, Api(n, call))
  {
    hide SendData, SendUserMessage, SendMoveUserReq, SendBroadcastInfo, Emits;
    NothingEmits(c, n);
    match call
    case CallData(dest, data, id, flags) => SendDataEmits(c, n, dest, data, id, flags);
    case CallUserMsg(sender, to, message, id, flags) => SendUserMessageEmits(c, n, n, sender, to, message, id, flags);
    case CallMove(user, oldNode) => SendMoveUserReqEmits(c, n, n, user, oldNode);
    case CallBeacon => SendBroadcastInfoEmits(c, n);
    case CallLogin(user, handle) => SameEmits(c, n, n, n.(users := AddOrRefresh(n.users, user, handle)));
    case CallLogout(user) => SameEmits(c, n, n, n.(users := Remove(n.users, user)));
    case CallDisconnect(handle) => SameEmits(c, n, n, n.(users := Disconnect(n.users, handle)));
    case CallPopInbox(user) => SameEmits(c, n, n, n.(users := PopInbox(n.users, user)));
  }

  /** A sweep only retransmits what it remembers. */
  lemma {:induction false} SweepBehaves(c: Ctx, n: Node, ids: seq<U32>)
    requires c.me == n.me && c.routes == n.routes
    ensures Behaves(c, n, Sweep(n, ids).node)
    decreases |ids|
  {
    hide Just;
    if ids != [] {
      SweepBehaves(c, n, ids[..|ids| - 1]);
    }
  }

  lemma {:induction false} ReportAllBehaves(n: Node, m: Node, es: seq<(U32, AckEntry)>, garbled: U32 -> U32)
    requires Behaves(Ctx(n.me, n.routes, Expiry, 0, 0), n, m)
    ensures Behaves(Ctx(n.me, n.routes, Expiry, 0, 0), n, ReportAll(m, es, garbled))
    decreases |es|
  {
    if es != [] {
      ReportAllBehaves(n, m, es[..|es| - 1], garbled);
      ReportOneBehaves(n, ReportAll(m, es[..|es| - 1], garbled), es[|es| - 1].0, es[|es| - 1].1, garbled);
    }
  }

  lemma ReportOneBehaves(n: Node, m: Node, id: U32, e: AckEntry, garbled: U32 -> U32)
    requires Behaves(Ctx(n.me, n.routes, Expiry, 0, 0), n, m)
    ensures Behaves(Ctx(n.me, n.routes, Expiry, 0, 0), n, ReportExpired(m, id, e, garbled))
  {
    var c := Ctx(n.me, n.routes, Expiry, 0, 0);
    var f := Frame(e.frame.origin, m.me, e.frame.origin, Draw(m), 0, 0, Rerr(m.me, m.me, garbled(id), id));
    assert OnAir(f) == f && !AsksAck(f.flags) && Just(c, f);
    hide Just, Retry;
  }

  lemma CleanupBehaves(n: Node, garbled: U32 -> U32)
    ensures Behaves(Ctx(n.me, n.routes, Expiry, 0, 0), n, CleanupAcks(n, garbled))
  {
    var ids := Ordered.Ascending(n.acks.Keys);
    SweepBehaves(Ctx(n.me, n.routes, Expiry, 0, 0), n, ids);
    ReportAllBehaves(n, Sweep(n, ids).node, Sweep(n, ids).expired, garbled);
  }

  // ---------- one step, seen from the acting node ----------

  /** The node a label activates, if any. */
  predicate Acts(l: Label) {
    !l.Lose?
  }

  function Actor(s: Net, l: Label): U32
    requires Acts(l) && (l.Deliver? ==> l.i < |s.flying|)
  {
    match l
    case Deliver(i, _) => s.flying[i].at
    case Invoke(q, _, _) => q
    case AckTimer(q, _, _) => q
  }

  /** The acting node before and after, and the context it ran in. */
  ghost function Before(s: Net, l: Label): Node
    requires Enabled(s, l) && Acts(l)
  {
    Awake(s.nodes[Actor(s, l)], l.env)
  }

  ghost function Result(s: Net, l: Label): Node
    requires Enabled(s, l) && Acts(l)
  {
    match l
    case Deliver(i, _) => HandlePacket(Before(s, l), s.flying[i].frame)
    case Invoke(_, call, _) => Api(Before(s, l), call)
    case AckTimer(_, _, garbled) => CleanupAcks(Before(s, l), garbled)
  }

  ghost function ActContext(s: Net, l: Label): Ctx
    requires Enabled(s, l) && Acts(l)
  {
    var n := Before(s, l);
    match l
    case Deliver(i, _) => Context(n, s.flying[i].frame)
    case Invoke(_, _, _) => Ctx(n.me, n.routes, Call, 0, 0)
    case AckTimer(_, _, _) => Ctx(n.me, n.routes, Expiry, 0, 0)
  }

  ghost function Consumed(s: Net, l: Label): seq<Copy>
    requires Enabled(s, l)
  {
    match l
    case Deliver(i, _) => Removed(s.flying, i)
    case Lose(i) => Removed(s.flying, i)
    case _ => s.flying
  }

  lemma StepShape(t: Topology, s: Net, l: Label)
    requires Placed(t, s) && Enabled(s, l) && Acts(l)
    ensures var q, n, n' := Actor(s, l), Before(s, l), Result(s, l);
            && q in s.nodes && q in t.nbrs && n.me == q
            && Behaves(ActContext(s, l), n, n')
            && Step(t, s, l).nodes == s.nodes[q := n']
            && Step(t, s, l).flying == Consumed(s, l) + Copies(t.nbrs[q], NewFrames(s.nodes[q], n'))
            && Step(t, s, l).ran == s.ran + (if l.Deliver? && Accepts(n, s.flying[l.i].frame) then [s.flying[l.i]] else [])
  {
    var n := Before(s, l);
    hide Api, CleanupAcks, HandlePacket, Behaves;
    match l
    case Deliver(i, _) => HandlePacketBehaves(n, s.flying[i].frame);
    case Invoke(_, call, _) => ApiBehaves(n, call);
    case AckTimer(_, _, garbled) => CleanupBehaves(n, garbled);
  }

  lemma ConsumedFlew(s: Net, l: Label, j: nat)
    requires Enabled(s, l) && j < |Consumed(s, l)|
    ensures Consumed(s, l)[j] in s.flying
  {
  }

  /** A copy of something node n has just put on the air. */
  ghost predicate JustAired(n: Node, n': Node, f: Frame) {
    exists i :: |n.io.air| <= i < |n'.io.air| && n'.io.air[i] == f
  }

  lemma CopiesJustAired(nbrs: seq<U32>, n: Node, n': Node, j: nat)
    requires n.io.air <= n'.io.air && j < |Copies(nbrs, NewFrames(n, n'))|
    ensures var c := Copies(nbrs, NewFrames(n, n'))[j]; c.at in nbrs && JustAired(n, n', c.frame)
  {
    var fs := NewFrames(n, n');
    CopiesHeard(nbrs, fs, j);
    var f := Copies(nbrs, fs)[j].frame;
    var k :| 0 <= k < |fs| && fs[k] == f;
    assert n'.io.air[|n.io.air| + k] == f;
  }

  /** Every copy in flight after a step was in flight before it, or was just
      put on the air by the acting node, to a neighbour. */
  lemma StepFlying(t: Topology, s: Net, l: Label, j: nat)
    requires Placed(t, s) && Enabled(s, l) && j < |Step(t, s, l).flying|
    ensures var c := Step(t, s, l).flying[j];
            || c in s.flying
            || (Acts(l) && Link(t, Actor(s, l), c.at) && JustAired(Before(s, l), Result(s, l), c.frame))
  {
    if l.Lose? {
      ConsumedFlew(s, l, j);
    } else {
      StepShape(t, s, l);
      ActedFlying(t, s, l, j);
    }
  }

  lemma ActedFlying(t: Topology, s: Net, l: Label, j: nat)
    requires Enabled(s, l) && Acts(l) && Actor(s, l) in t.nbrs
    requires Before(s, l).io.air <= Result(s, l).io.air
    requires Step(t, s, l).flying
          == Consumed(s, l) + Copies(t.nbrs[Actor(s, l)], NewFrames(s.nodes[Actor(s, l)], Result(s, l)))
    requires j < |Step(t, s, l).flying|
    ensures var c := Step(t, s, l).flying[j];
            || c in s.flying
            || (Link(t, Actor(s, l), c.at) && JustAired(Before(s, l), Result(s, l), c.frame))
  {
    hide Step, Result, Copies, Heard, JustAired;
    var k := |Consumed(s, l)|;
    if j < k {
      ConsumedFlew(s, l, j);
    } else {
      var n, n' := Before(s, l), Result(s, l);
      assert NewFrames(s.nodes[Actor(s, l)], n') == NewFrames(n, n');
      CopiesJustAired(t.nbrs[Actor(s, l)], n, n', j - k);
    }
  }

  lemma ConsumedKeeps(s: Net, l: Label, j: nat)
    requires Enabled(s, l) && j < |s.flying| && !((l.Deliver? || l.Lose?) && l.i == j)
    ensures s.flying[j] in Consumed(s, l)
  {
    if l.Deliver? || l.Lose? {
      var r := Removed(s.flying, l.i);
      if j < l.i {
        assert r[j] == s.flying[j];
      } else {
        assert r[j - 1] == s.flying[j];
      }
    }
  }

  lemma StepKeepsCopies(t: Topology, s: Net, l: Label, c: Copy)
    requires Placed(t, s) && Enabled(s, l) && c in Consumed(s, l)
    ensures c in Step(t, s, l).flying
  {
    if Acts(l) {
      StepShape(t, s, l);
      hide Step, Consumed, Result, Behaves;
    }
  }

  // ---------- invariants of every step ----------

  lemma BehavesOwn(c: Ctx, n: Node, n': Node)
    requires Behaves(c, n, n') && Own(n, n.me)
    ensures Own(n', n'.me)
  {
  }

  lemma AiredByMe(c: Ctx, n: Node, n': Node, f: Frame)
    requires Behaves(c, n, n') && Own(n, n.me) && JustAired(n, n', f)
    ensures f.prev == n.me
  {
  }

  lemma StepPlaced(t: Topology, s: Net, l: Label)
    requires Valid(t) && Placed(t, s) && Enabled(s, l)
    ensures Placed(t, Step(t, s, l))
  {
    hide Behaves, Result, Own;
    var s' := Step(t, s, l);
    if Acts(l) {
      StepShape(t, s, l);
      AwakeOwn(s.nodes[Actor(s, l)], l.env, Actor(s, l));
      BehavesOwn(ActContext(s, l), Before(s, l), Result(s, l));
      ResultMe(ActContext(s, l), Before(s, l), Result(s, l));
    }
    forall j | 0 <= j < |s'.flying|
      ensures Link(t, s'.flying[j].frame.prev, s'.flying[j].at) && s'.flying[j].at in s'.nodes
    {
      StepFlying(t, s, l, j);
      var c := s'.flying[j];
      if c in s.flying {
      } else {
        AiredByMe(ActContext(s, l), Before(s, l), Result(s, l), c.frame);
      }
    }
  }

  lemma AwakeOwn(n: Node, env: Env, q: U32)
    requires Own(n, q)
    ensures Own(Awake(n, env), q)
  {
  }

  lemma ResultMe(c: Ctx, n: Node, n': Node)
    requires Behaves(c, n, n')
    ensures n'.me == n.me
  {
  }

  /** P holds of every frame in flight, remembered, or ever put on the air. */
  ghost predicate Everywhere(s: Net, P: Frame -> bool) {
    && (forall i | 0 <= i < |s.flying| :: P(s.flying[i].frame))
    && (forall q | q in s.nodes :: Remembers(s.nodes[q], P))
  }

  ghost predicate Remembers(n: Node, P: Frame -> bool) {
    && (forall k | k in n.acks :: P(n.acks[k].frame))
    && (forall i | 0 <= i < |n.io.air| :: P(n.io.air[i]))
  }

  lemma BehavesEverywhere(c: Ctx, n: Node, n': Node, P: Frame -> bool)
    requires Behaves(c, n, n') && Remembers(n, P)
    requires forall e | Just(c, e) :: P(e)
    ensures Remembers(n', P)
    ensures forall f | JustAired(n, n', f) :: P(f)
  {
    hide Just;
    forall i | 0 <= i < |n'.io.air|
      ensures P(n'.io.air[i])
    {
      if i < |n.io.air| {
        assert n'.io.air[i] == n.io.air[i];
      }
    }
  }

  /** If everything the acting node may send satisfies P, then P stays true everywhere. */
  lemma StepEverywhere(t: Topology, s: Net, l: Label, c: Ctx, P: Frame -> bool)
    requires Placed(t, s) && Enabled(s, l) && Everywhere(s, P)
    requires Acts(l) ==> Behaves(c, Before(s, l), Result(s, l)) && forall e | Just(c, e) :: P(e)
    ensures Everywhere(Step(t, s, l), P)
  {
    hide Behaves, Result, Just, Remembers, Own;
    var s' := Step(t, s, l);
    if Acts(l) {
      StepShape(t, s, l);
      AwakeRemembers(s.nodes[Actor(s, l)], l.env, P);
      BehavesEverywhere(c, Before(s, l), Result(s, l), P);
    }
    forall j | 0 <= j < |s'.flying|
      ensures P(s'.flying[j].frame)
    {
      StepFlying(t, s, l, j);
    }
  }

  lemma AwakeRemembers(n: Node, env: Env, P: Frame -> bool)
    requires Remembers(n, P)
    ensures Remembers(Awake(n, env), P)
  {
  }

  /** The log of handled copies grows by the copy delivered, if it is handled. */
  ghost function Ran(s: Net, l: Label): seq<Copy>
    requires Enabled(s, l)
  {
    if l.Deliver? && Accepts(Before(s, l), s.flying[l.i].frame) then [s.flying[l.i]] else []
  }

  lemma StepRan(t: Topology, s: Net, l: Label)
    requires Placed(t, s) && Enabled(s, l)
    ensures Step(t, s, l).ran == s.ran + Ran(s, l)
  {
    if Acts(l) {
      StepShape(t, s, l);
      hide Step;
    }
  }

  lemma HistoryStep(t: Topology, ss: seq<Net>, ls: seq<Label>, i: nat)
    requires IsHistory(t, ss, ls) && i < |ls|
    ensures |ss| == |ls| + 1 && Enabled(ss[i], ls[i]) && ss[i + 1] == Step(t, ss[i], ls[i])
  {
    hide Step, Enabled;
  }

  lemma HistoryStart(t: Topology, ss: seq<Net>, ls: seq<Label>) returns (env: Env)
    requires IsHistory(t, ss, ls)
    ensures |ss| == |ls| + 1 && ss[0] == Start(t, env)
  {
    hide Step, Enabled;
    env :| ss[0] == Start(t, env);
  }

  lemma HistoryExtend(t: Topology, ss: seq<Net>, ls: seq<Label>, l: Label)
    requires IsHistory(t, ss, ls) && Enabled(ss[|ls|], l)
    ensures IsHistory(t, ss + [Step(t, ss[|ls|], l)], ls + [l])
  {
    hide Step, Enabled;
  }

  lemma HistoryBegin(t: Topology, env: Env)
    ensures IsHistory(t, [Start(t, env)], [])
  {
  }

  lemma OneFrameCopies(nbrs: seq<U32>, f: Frame)
    ensures Copies(nbrs, [f]) == Heard(nbrs, f)
  {
    assert [f][..0] == [];
  }

  lemma {:induction false} HistoryPlaced(t: Topology, ss: seq<Net>, ls: seq<Label>, i: nat)
    requires Valid(t) && IsHistory(t, ss, ls) && i < |ss|
    ensures Placed(t, ss[i])
  {
    hide Step, Enabled, IsHistory;
    var _ := HistoryStart(t, ss, ls);
    if i > 0 {
      HistoryPlaced(t, ss, ls, i - 1);
      HistoryStep(t, ss, ls, i - 1);
      StepPlaced(t, ss[i - 1], ls[i - 1]);
    }
  }

  // ---------- what an activation tells the phones ----------

  predicate Spoken(c: Ctx, note: Note) {
    && (note.BleAck? ==> c.cause.Received? && c.cause.frame.body == Ack(note.id))
    && (note.BleBroadcast? ==> c.cause.Received? && c.cause.frame.id == note.id)
  }

  ghost predicate Speaks(c: Ctx, n: Node, n': Node) {
    n.io.notes <= n'.io.notes && forall i | |n.io.notes| <= i < |n'.io.notes| :: Spoken(c, n'.io.notes[i])
  }

  lemma MildSpeaks(c: Ctx, n: Node, m: Node, n': Node)
    requires n.io.notes <= m.io.notes && forall i | |n.io.notes| <= i < |m.io.notes| :: m.io.notes[i].GatewayState?
    requires NewNotes(c, m, n')
    ensures Speaks(c, n, n')
  {
    forall i | |n.io.notes| <= i < |n'.io.notes|
      ensures Spoken(c, n'.io.notes[i])
    {
      if i < |m.io.notes| {
        assert n'.io.notes[i] == m.io.notes[i];
      } else {
        assert Mild(c, n'.io.notes[i]);
      }
    }
  }

  lemma HandlePacketSpeaks(n: Node, f: Frame)
    ensures Speaks(Context(n, f), n, HandlePacket(n, f))
  {
    hide Dispatch, Learn, Learned;
    var m := n.(seen := n.seen + {f.id});
    if Accepts(n, f) && f.body.Ack? {
      AckSpeaks(n, f);
    } else if Accepts(n, f) {
      LearnRoutes(m, f);
      DispatchEmits(m, f, 0);
      LearnOnlyLearns(m, f);
      hide NewAir, NewAcks, Undisturbed, Ledger, Clean;
      MildSpeaks(Context(n, f), n, Learn(m, f), Dispatch(m, f));
    }
  }

  lemma AckSpeaks(n: Node, f: Frame)
    requires f.body.Ack? && Accepts(n, f)
    ensures Speaks(Context(n, f), n, HandlePacket(n, f))
  {
  }

  lemma {:induction false} SweepSilent(n: Node, ids: seq<U32>)
    ensures Sweep(n, ids).node.io.notes == n.io.notes
    decreases |ids|
  {
    if ids != [] {
      SweepSilent(n, ids[..|ids| - 1]);
    }
  }

  lemma {:induction false} ReportAllSpeaks(c: Ctx, n: Node, es: seq<(U32, AckEntry)>, garbled: U32 -> U32)
    ensures Speaks(c, n, ReportAll(n, es, garbled))
    decreases |es|
  {
    if es != [] {
      ReportAllSpeaks(c, n, es[..|es| - 1], garbled);
      RerrNotCounted(ReportAll(n, es[..|es| - 1], garbled), es[|es| - 1].1.frame.origin, garbled(es[|es| - 1].0),
                     es[|es| - 1].0, 0);
      hide SendRerr;
    }
  }

  lemma StepSpeaks(s: Net, l: Label)
    requires Enabled(s, l) && Acts(l)
    ensures Speaks(ActContext(s, l), Before(s, l), Result(s, l))
  {
    hide Api, HandlePacket, Sweep, ReportAll, Spoken;
    var n := Before(s, l);
    match l
    case Deliver(i, _) => HandlePacketSpeaks(n, s.flying[i].frame);
    case Invoke(_, call, _) => ApiSpeaks(n, call);
    case AckTimer(_, _, garbled) =>
      var ids := Ordered.Ascending(n.acks.Keys);
      SweepSilent(n, ids);
      ReportAllSpeaks(ActContext(s, l), Sweep(n, ids).node, Sweep(n, ids).expired, garbled);
  }

  lemma ApiSpeaks(n: Node, call: ApiCall)
    ensures Speaks(Ctx(n.me, n.routes, Call, 0, 0), n, Api(n, call))
  {
    var c := Ctx(n.me, n.routes, Call, if call.CallData? || call.CallUserMsg? then OtherThan(call.id) else 0, 0);
    ApiEmits(c, n, call);
    hide Api, NewAir, NewAcks, Undisturbed, Ledger;
    MildSpeaks(c, n, n, Api(n, call));
  }
}
