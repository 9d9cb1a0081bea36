/** The sessions of every node in every run are what a history of session
    operations makes them, so what is proved of such histories holds of nodes. */
module SessionRuns {
  import opened Packets
  import opened Sessions
  import opened Nodes
  import opened Network
  import opened AnyFlood
  import opened HandlerOutcomes
  import opened CallOutcomes
  import opened PhoneLog
  import opened InboxHistory
  import opened Presence

  /** These operations, one after the other. */
  ghost function Performed(t: Table, ops: seq<Op>): Table
    decreases |ops|
  {
    if ops == [] then t else Apply(Performed(t, ops[..|ops| - 1]), ops[|ops| - 1])
  }

  /** What a received frame makes the node do to its sessions: keep a text for a known user who is not connected; hand over
      and forget a user who has moved away. */
  ghost function OpsFor(n: Node, f: Frame): seq<Op> {
    var b := f.body;
    if !Accepts(n, f) then []
    else if b.UserMsg? && b.toNode == n.me && f.flags != TO_GATEWAY && b.toUser in n.users.users && !n.users.users[b.toUser].connected then
      [Queue(b.toUser, OfflineMsg(KindFor(f.flags), f.id, b.toUser, b.fromUser, b.message))]
    else if b.MoveUser? && b.oldNode == n.me then [Pop(b.user), Logout(b.user)]
    else []
  }

  function OpsCalled(call: ApiCall): seq<Op> {
    match call
    case CallLogin(u, h) => [Login(u, h)]
    case CallLogout(u) => [Logout(u)]
    case CallDisconnect(h) => [Dropped(h)]
    case CallPopInbox(u) => [Pop(u)]
    case CallBeacon => [Publish]
    case _ => []
  }

  ghost function OpsIn(s: Net, l: Label, q: U32): seq<Op>
    requires Enabled(s, l)
  {
    if !Acts(l) || Actor(s, l) != q then []
    else if l.Deliver? then OpsFor(Before(s, l), s.flying[l.i].frame)
    else if l.Invoke? then OpsCalled(l.call)
    else []
  }

  lemma OneOp(t: Table, op: Op)
    ensures Performed(t, [op]) == Apply(t, op)
  {
    assert [op][..0] == [];
  }

  lemma TwoOps(t: Table, a: Op, b: Op)
    ensures Performed(t, [a, b]) == Apply(Apply(t, a), b)
  {
    assert [a, b][..1] == [a];
    OneOp(t, a);
    hide Apply;
  }

  lemma {:induction false} PerformedAfter(before: seq<Op>, ops: seq<Op>)
    ensures Play(before + ops) == Performed(Play(before), ops)
    decreases |ops|
  {
    hide Apply;
    if ops == [] {
      assert before + ops == before;
    } else {
      var k := |ops| - 1;
      PerformedAfter(before, ops[..k]);
      assert (before + ops)[..|before + ops| - 1] == before + ops[..k];
    }
  }

  lemma HearingPerforms(n: Node, f: Frame)
    ensures HandlePacket(n, f).users == Performed(n.users, OpsFor(n, f))
  {
    hide HandlePacket, Accepts, Says, Hands, Performed;
    NoOps(n.users);
    if !Accepts(n, f) {
      UnhandledSessions(n, f);
    } else {
      match f.body
      case Data(_, _) => DataOutcome(n, f);
      case UserMsg(_, _, _, _) => TextPerforms(n, f);
      case Info(_, _, _) => InfoOutcome(n, f);
      case Ack(_) => AckOutcome(n, f);
      case Rreq(_) => RreqOutcome(n, f);
      case Ureq(_) => UreqOutcome(n, f);
      case Rerr(_, _, _, _) => RerrOutcome(n, f);
      case Uerr(_, _, _) => UerrOutcome(n, f);
      case Rrep(_, _) => ReplySilent(n, f);
      case Urep(_, _, _) => ReplySilent(n, f);
      case MoveUser(u, _) =>
        ReplySilent(n, f);
        TwoOps(n.users, Pop(u), Logout(u));
    }
  }

  lemma NoOps(t: Table)
    ensures Performed(t, []) == t
  {
  }

  lemma UnhandledSessions(n: Node, f: Frame)
    requires !Accepts(n, f)
    ensures HandlePacket(n, f).users == n.users
  {
    GateIff(n, f);
    hide HandlePacket;
  }

  lemma TextPerforms(n: Node, f: Frame)
    requires Accepts(n, f) && f.body.UserMsg?
    ensures HandlePacket(n, f).users == Performed(n.users, OpsFor(n, f))
  {
    hide HandlePacket, Accepts, Says, Hands, Performed;
    NoOps(n.users);
    UserMsgOutcome(n, f);
    var u, m := f.body.toUser, OfflineMsg(KindFor(f.flags), f.id, f.body.toUser, f.body.fromUser, f.body.message);
    OneOp(n.users, Queue(u, m));
  }

  lemma CallPerforms(n: Node, call: ApiCall)
    ensures Api(n, call).users == Performed(n.users, OpsCalled(call))
  {
    hide SendData, SendUserMessage, SendMoveUserReq, SendBroadcastInfo, Performed;
    NoOps(n.users);
    match call
    case CallData(dest, data, id, flags) => DataCall(n, dest, data, id, flags);
    case CallUserMsg(sender, to, message, id, flags) => UserMsgCall(n, sender, to, message, id, flags);
    case CallMove(user, oldNode) => MoveCall(n, user, oldNode);
    case CallBeacon =>
      BeaconCall(n);
      OneOp(n.users, Publish);
    case CallLogin(u, h) => OneOp(n.users, Login(u, h));
    case CallLogout(u) => OneOp(n.users, Logout(u));
    case CallDisconnect(h) => OneOp(n.users, Dropped(h));
    case CallPopInbox(u) => OneOp(n.users, Pop(u));
  }

  lemma StepSessions(t: Topology, s: Net, l: Label, q: U32)
    requires Placed(t, s) && Enabled(s, l) && q in s.nodes
    ensures q in Step(t, s, l).nodes && Step(t, s, l).nodes[q].users == Performed(s.nodes[q].users, OpsIn(s, l, q))
  {
    NoOps(s.nodes[q].users);
    if Acts(l) {
      StepShape(t, s, l);
      hide Step, Behaves, HandlePacket, Api, CleanupAcks, OpsFor, OpsCalled, Performed, Own;
      var n := Before(s, l);
      match l
      case Deliver(i, _) => HearingPerforms(n, s.flying[i].frame);
      case Invoke(_, call, _) => CallPerforms(n, call);
      case AckTimer(_, _, garbled) => TimerOutcome(n, garbled);
    } else {
      LoseNodes(t, s, l);
    }
  }

  // ---------- whole runs ----------

  /** The session operations performed at q in the first i steps. */
  ghost function OpsAt(ss: seq<Net>, ls: seq<Label>, q: U32, i: nat): seq<Op>
    requires i <= |ls| <= |ss| && forall j | 0 <= j < i :: Enabled(ss[j], ls[j])
  {
    if i == 0 then [] else OpsAt(ss, ls, q, i - 1) + OpsIn(ss[i - 1], ls[i - 1], q)
  }

  lemma {:induction false} NodeSessions(t: Topology, ss: seq<Net>, ls: seq<Label>, i: nat, q: U32)
    requires Valid(t) && IsHistory(t, ss, ls) && i <= |ls| && q in t.nbrs
    ensures |ss| == |ls| + 1 && q in ss[i].nodes && forall j | 0 <= j < i :: Enabled(ss[j], ls[j])
    ensures ss[i].nodes[q].users == Play(OpsAt(ss, ls, q, i))
  {
    hide Step, Enabled, IsHistory, Placed, Performed, OpsIn, Apply;
    var env := HistoryStart(t, ss, ls);
    if i > 0 {
      NodeSessions(t, ss, ls, i - 1, q);
      HistoryStep(t, ss, ls, i - 1);
      HistoryPlaced(t, ss, ls, i - 1);
      StepSessions(t, ss[i - 1], ls[i - 1], q);
      PerformedAfter(OpsAt(ss, ls, q, i - 1), OpsIn(ss[i - 1], ls[i - 1], q));
    }
  }

  /** At every node of every run: who is online on which connection, who is known, and what each inbox holds, told by the
      logins, disconnects, removals, queued texts and pops there. */
  lemma NodeSessionsTold(t: Topology, ss: seq<Net>, ls: seq<Label>, i: nat, q: U32, u: U32, h: U16)
    requires Valid(t) && IsHistory(t, ss, ls) && i <= |ls| && q in t.nbrs
    ensures |ss| == |ls| + 1 && q in ss[i].nodes && forall j | 0 <= j < i :: Enabled(ss[j], ls[j])
    ensures var users, ops := ss[i].nodes[q].users, OpsAt(ss, ls, q, i);
            && (IsOnline(users, u) && users.users[u].handle == h <==> OnlineOn(ops, u, h))
            && (IsOnline(users, u) <==> Online(ops, u))
            && (Knows(users, u) <==> Known(ops, u))
            && Inbox(users, u) == Newest(Queued(ops, u))
  {
    hide IsHistory, Enabled, OpsAt, Play, Online, OnlineOn, Known;
    NodeSessions(t, ss, ls, i, q);
    OnlineIff(OpsAt(ss, ls, q, i), u, h);
    InboxIsNewest(OpsAt(ss, ls, q, i), u);
  }

  /** In every run: a text that reaches the home of a user it knows is shown at once if and only if the user is online by what
      has happened at that node so far, and kept in the inbox otherwise. */
  lemma TextShownIffOnline(t: Topology, ss: seq<Net>, ls: seq<Label>, i: nat)
    requires Valid(t) && IsHistory(t, ss, ls) && i < |ls| && |ss| == |ls| + 1 && Enabled(ss[i], ls[i]) && ls[i].Deliver?
    requires var c := ss[i].flying[ls[i].i];
             && Accepts(Before(ss[i], ls[i]), c.frame) && c.frame.body.UserMsg? && c.frame.body.toNode == c.at
             && c.frame.flags != TO_GATEWAY && c.at in ss[i].nodes && Knows(ss[i].nodes[c.at].users, c.frame.body.toUser)
    ensures forall j | 0 <= j < i :: Enabled(ss[j], ls[j])
    ensures var c := ss[i].flying[ls[i].i];
            var b, kind, ops := c.frame.body, KindFor(c.frame.flags), OpsAt(ss, ls, c.at, i);
            && c.at in ss[i + 1].nodes
            && (if Online(ops, b.toUser) then
                  && ss[i + 1].nodes[c.at].io.notes
                     == ss[i].nodes[c.at].io.notes + [BleUser(kind, b.toUser, b.fromUser, b.message, c.frame.id)]
                  && ss[i + 1].nodes[c.at].users == ss[i].nodes[c.at].users
                else
                  && ss[i + 1].nodes[c.at].io.notes == ss[i].nodes[c.at].io.notes
                  && Inbox(ss[i + 1].nodes[c.at].users, b.toUser)
                     == Newest(Queued(ops, b.toUser) + [OfflineMsg(kind, c.frame.id, b.toUser, b.fromUser, b.message)]))
  {
    hide IsHistory, Step, Online, OnlineOn, Known, Queued, OpsAt, Play, Accepts, HandlePacket, ToldIn, OpsIn, Performed;
    var s, l := ss[i], ls[i];
    var c := s.flying[l.i];
    var b := c.frame.body;
    HistoryPlaced(t, ss, ls, i);
    HistoryStep(t, ss, ls, i);
    assert c.at in t.nbrs;
    NodeSessions(t, ss, ls, i, c.at);
    var ops := OpsAt(ss, ls, c.at, i);
    OnlineIff(ops, b.toUser, 0);
    InboxIsNewest(ops, b.toUser);
    StepNotes(t, s, l, c.at);
    StepSessions(t, s, l, c.at);
    TextArrives(s, l);
    DropOldestIsNewest(Queued(ops, b.toUser), OfflineMsg(KindFor(c.frame.flags), c.frame.id, b.toUser, b.fromUser, b.message));
  }

  /** What such a step tells and keeps. */
  lemma TextArrives(s: Net, l: Label)
    requires Enabled(s, l) && l.Deliver? && s.nodes[Actor(s, l)].me == Actor(s, l)
    requires var c := s.flying[l.i];
             && Accepts(Before(s, l), c.frame) && c.frame.body.UserMsg? && c.frame.body.toNode == c.at
             && c.frame.flags != TO_GATEWAY && Knows(s.nodes[c.at].users, c.frame.body.toUser)
    ensures var c := s.flying[l.i];
            var f, b, t := c.frame, c.frame.body, s.nodes[c.at].users;
            var m := OfflineMsg(KindFor(f.flags), f.id, b.toUser, b.fromUser, b.message);
            && ToldIn(s, l) == (if IsOnline(t, b.toUser) then [BleUser(KindFor(f.flags), b.toUser, b.fromUser, b.message, f.id)] else [])
            && (IsOnline(t, b.toUser) ==> Performed(t, OpsIn(s, l, c.at)) == t)
            && (!IsOnline(t, b.toUser) ==>
                  Inbox(Performed(t, OpsIn(s, l, c.at)), b.toUser) == DropOldest(Inbox(t, b.toUser), m))
  {
    hide Accepts, HandlePacket;
    var c := s.flying[l.i];
    var t, f := s.nodes[c.at].users, c.frame;
    NoOps(t);
    OneOp(t, Queue(f.body.toUser, OfflineMsg(KindFor(f.flags), f.id, f.body.toUser, f.body.fromUser, f.body.message)));
    hide Performed;
  }
}
