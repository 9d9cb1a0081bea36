/** The phone log of every node in every run: exactly which notes each step adds,
    and so how often a text is shown and an acknowledgement reported. */
module PhoneLog {
  import opened Packets
  import opened Ordered
  import opened Sessions
  import opened Nodes
  import opened Effects
  import opened Counting
  import opened Network
  import opened Flood
  import opened AnyFlood
  import opened AckOutcomes
  import opened HandlerOutcomes
  import opened CallOutcomes

  // ---------- resending is silent, and no matter for the sessions ----------

  lemma SendSilent(n: Node, sender: U32, to: U32, message: seq<U8>, id: U32, flags: U8)
    ensures SendUserMessage(n, sender, to, message, id, flags).io.notes == n.io.notes
    ensures SendUserMessage(n, sender, to, message, id, flags).users == n.users
  {
    UserMsgCall(n, sender, to, message, id, flags);
    hide SendUserMessage, Hands;
  }

  lemma {:induction false} UserItemsSilent(n: Node, ms: seq<PendingUser>)
    ensures FlushUserItems(n, ms).io.notes == n.io.notes
    ensures FlushUserItems(n, ms).users == n.users
    decreases |ms|
  {
    hide SendUserMessage;
    if ms != [] {
      var m := ms[|ms| - 1];
      UserItemsSilent(n, ms[..|ms| - 1]);
      SendSilent(FlushUserItems(n, ms[..|ms| - 1]), m.sender, m.destUser, m.message, m.id, 0);
    }
  }

  lemma {:induction false} MsgItemsSilent(n: Node, u: U32, ms: seq<PendingMsg>)
    ensures FlushMsgItems(n, u, ms).io.notes == n.io.notes
    ensures FlushMsgItems(n, u, ms).users == n.users
    decreases |ms|
  {
    hide SendUserMessage;
    if ms != [] {
      var m := ms[|ms| - 1];
      MsgItemsSilent(n, u, ms[..|ms| - 1]);
      SendSilent(FlushMsgItems(n, u, ms[..|ms| - 1]), m.sender, u, m.message, m.id, 0);
    }
  }

  lemma {:induction false} InboxSilent(n: Node, ms: seq<OfflineMsg>)
    ensures ForwardInbox(n, ms).io.notes == n.io.notes
    ensures ForwardInbox(n, ms).users == n.users
    decreases |ms|
  {
    hide SendUserMessage;
    if ms != [] {
      var m := ms[|ms| - 1];
      InboxSilent(n, ms[..|ms| - 1]);
      SendSilent(ForwardInbox(n, ms[..|ms| - 1]), m.sender, m.to, m.data, m.id, if m.kind == EncryptedMsg then ENC_MSG else 0);
    }
  }

  lemma {:induction false} MoveItemsSilent(n: Node, rs: seq<MoveReq>)
    ensures FlushMoveItems(n, rs).io.notes == n.io.notes
    ensures FlushMoveItems(n, rs).users == n.users
    decreases |rs|
  {
    hide SendMoveUserReq;
    if rs != [] {
      var r := rs[|rs| - 1];
      MoveItemsSilent(n, rs[..|rs| - 1]);
      MoveCall(FlushMoveItems(n, rs[..|rs| - 1]), r.user, r.oldNode);
    }
  }

  lemma {:induction false} DataItemsSilent(n: Node, t: U32, ps: seq<PendingData>)
    ensures FlushDataItems(n, t, ps).io.notes == n.io.notes
    ensures FlushDataItems(n, t, ps).users == n.users
    decreases |ps|
  {
    if ps != [] {
      DataItemsSilent(n, t, ps[..|ps| - 1]);
    }
  }

  lemma FlushSilent(n: Node, t: U32)
    ensures Flush(n, t).io.notes == n.io.notes
    ensures Flush(n, t).users == n.users
  {
    hide FlushDataItems, FlushMoveItems, FlushUserItems;
    var d := FlushData(n, t);
    DataItemsSilent(n.(bufs := n.bufs.(dataBuf := n.bufs.dataBuf - {t})), t, At(n.bufs.dataBuf, t));
    MoveItemsSilent(d.(bufs := d.bufs.(moveBuf := d.bufs.moveBuf - {t})), At(d.bufs.moveBuf, t));
    var e := FlushMove(d, t);
    UserItemsSilent(e.(bufs := e.bufs.(routeBuf := e.bufs.routeBuf - {t})), At(e.bufs.routeBuf, t));
  }

  /** Replies and move requests tell the phones nothing; only a move request at the old home touches the sessions. */
  lemma ReplySilent(n: Node, f: Frame)
    requires Accepts(n, f) && (f.body.Rrep? || f.body.Urep? || f.body.MoveUser?)
    ensures Says(n, HandlePacket(n, f), [])
    ensures HandlePacket(n, f).users
         == if f.body.MoveUser? && f.body.oldNode == n.me then Remove(PopInbox(n.users, f.body.user), f.body.user) else n.users
  {
    hide Flush, FlushMsgItems, ForwardInbox, HandlePacket, Backward, Transmit, Updated;
    HandledBy(n, f);
    var m := n.(seen := n.seen + {f.id});
    if f.body.Rrep? {
      FlushSilent(LearnRrep(m, f), f.body.target);
      BackwardSends(Flush(LearnRrep(m, f), f.body.target), f, Rrep(f.body.target, Inc8(f.body.numHops)));
    } else if f.body.Urep? {
      var a, u := LearnUrep(m, f), f.body.user;
      MsgItemsSilent(a.(bufs := a.bufs.(msgBuf := a.bufs.msgBuf - {u})), u, At(a.bufs.msgBuf, u));
      BackwardSends(a, f, f.body);
    } else if f.body.oldNode == n.me {
      var a, u := LearnMove(m, f), f.body.user;
      InboxSilent(a.(users := PopInbox(a.users, u)), Inbox(a.users, u));
    } else {
      MoveOutcome(n, f);
    }
  }

  // ---------- the notes of one activation ----------

  /** What the phones are told when node n is given frame f. */
  ghost function ToldOf(n: Node, f: Frame): seq<Note> {
    var b := f.body;
    if !Accepts(n, f) then []
    else if b.Data? then
      if b.finalDest == n.me then [BleNode(f.origin, b.data, f.id)]
      else if b.finalDest == BROADCAST_ADDR then [BleBroadcast(b.data, f.id)]
      else []
    else if b.UserMsg? then
      if b.toNode != n.me then []
      else if f.flags == TO_GATEWAY then (if n.io.env.gwOnline then [Uplink(b.fromUser, b.toUser, b.message)] else [])
      else if b.toUser in n.users.users && n.users.users[b.toUser].connected then
        [BleUser(KindFor(f.flags), b.toUser, b.fromUser, b.message, f.id)]
      else []
    else if b.Info? then [GatewayState(HandlePacket(n, f).peers.gateways != [])]
    else if b.Ack? then
      if b.originalPacket in n.acks && n.acks[b.originalPacket].frame.origin == n.me then [BleAck(b.originalPacket)] else []
    else []
  }

  lemma HearingTells(n: Node, f: Frame)
    ensures HandlePacket(n, f).io.notes == n.io.notes + ToldOf(n, f)
  {
    hide HandlePacket, Accepts, Hands, KeepsStore;
    if Accepts(n, f) {
      match f.body
      case Data(_, _) => DataOutcome(n, f);
      case UserMsg(_, _, _, _) => UserMsgOutcome(n, f);
      case Info(_, _, _) => InfoOutcome(n, f);
      case Ack(_) => AckOutcome(n, f);
      case Rreq(_) => RreqOutcome(n, f);
      case Ureq(_) => UreqOutcome(n, f);
      case Rerr(_, _, _, _) => RerrOutcome(n, f);
      case Uerr(_, _, _) => UerrOutcome(n, f);
      case Rrep(_, _) => ReplySilent(n, f);
      case Urep(_, _, _) => ReplySilent(n, f);
      case MoveUser(_, _) => ReplySilent(n, f);
    } else {
      UnhandledSilent(n, f);
    }
  }

  lemma UnhandledSilent(n: Node, f: Frame)
    requires !Accepts(n, f)
    ensures HandlePacket(n, f).io.notes == n.io.notes
  {
    GateIff(n, f);
    hide HandlePacket;
  }

  lemma CallSilent(n: Node, call: ApiCall)
    ensures Api(n, call).io.notes == n.io.notes
  {
    hide SendData, SendUserMessage, SendMoveUserReq, SendBroadcastInfo, Hands;
    match call
    case CallData(dest, data, id, flags) => DataCall(n, dest, data, id, flags);
    case CallUserMsg(sender, to, message, id, flags) => UserMsgCall(n, sender, to, message, id, flags);
    case CallMove(user, oldNode) => MoveCall(n, user, oldNode);
    case CallBeacon => BeaconCall(n);
    case _ =>
  }

  ghost function ToldIn(s: Net, l: Label): seq<Note>
    requires Enabled(s, l) && Acts(l)
  {
    match l
    case Deliver(i, _) => ToldOf(Before(s, l), s.flying[i].frame)
    case Invoke(_, _, _) => []
    case AckTimer(q, _, _) => Failures(ReportedOf(Before(s, l), Ascending(s.nodes[q].acks.Keys)))
  }

  /** The phone log after a step, at every node: what it was, and at the acting node the notes above. */
  lemma StepNotes(t: Topology, s: Net, l: Label, q: U32)
    requires Placed(t, s) && Enabled(s, l) && q in s.nodes
    ensures q in Step(t, s, l).nodes
    ensures Step(t, s, l).nodes[q].io.notes == s.nodes[q].io.notes + if Acts(l) && Actor(s, l) == q then ToldIn(s, l) else []
  {
    if Acts(l) {
      StepShape(t, s, l);
      hide Step, Behaves, HandlePacket, Api, CleanupAcks, ToldOf, Hands, KeepsStore, ReportedOf, Own;
      var n := Before(s, l);
      match l
      case Deliver(i, _) => HearingTells(n, s.flying[i].frame);
      case Invoke(_, call, _) => CallSilent(n, call);
      case AckTimer(_, _, garbled) => TimerOutcome(n, garbled);
    } else {
      LoseNodes(t, s, l);
    }
  }

  // ---------- texts for a node, and for all nodes, over whole runs ----------

  /** The note that shows a text for this node. */
  function NodeNote(p: U32): Note -> bool {
    (x: Note) => x.BleNode? && x.id == p
  }

  /** A copy of packet p, a text for node q, at q. */
  function TextFor(q: U32, p: U32): Copy -> bool {
    (c: Copy) => c.at == q && c.frame.id == p && c.frame.body.Data? && c.frame.body.finalDest == q
  }

  /** A copy of packet p, a text for all nodes, at q. */
  function TextForAll(q: U32, p: U32): Copy -> bool {
    (c: Copy) => c.at == q && c.frame.id == p && c.frame.body.Data? && c.frame.body.finalDest == BROADCAST_ADDR
  }

  /** Any note that shows a text that came in packet p. */
  function Shows(p: U32): Note -> bool {
    (x: Note) => (x.BleNode? || x.BleBroadcast? || x.BleUser?) && x.id == p
  }

  ghost function TellsNow(s: Net, l: Label, q: U32): seq<Note>
    requires Enabled(s, l)
  {
    if Acts(l) && Actor(s, l) == q then ToldIn(s, l) else []
  }

  lemma CountSingle<T>(x: T, P: T -> bool)
    ensures Count([x], P) == if P(x) then 1 else 0
  {
    CountOne([], x, P);
    assert [] + [x] == [x];
  }

  lemma CountEmpty<T>(P: T -> bool)
    ensures Count([], P) == 0
  {
  }

  /** The texts shown in a step are those of the copy handled in it. */
  lemma StepShows(t: Topology, s: Net, l: Label, q: U32, p: U32)
    requires Valid(t) && Placed(t, s) && Enabled(s, l) && q in s.nodes
    ensures Count(TellsNow(s, l, q), NodeNote(p)) == Count(Ran(s, l), TextFor(q, p))
    ensures Count(TellsNow(s, l, q), Announces(p)) == Count(Ran(s, l), TextForAll(q, p))
    ensures Count(TellsNow(s, l, q), Shows(p)) <= Count(Ran(s, l), HandledAt(q, p))
  {
    if l.Deliver? {
      assert Own(s.nodes[Actor(s, l)], Actor(s, l));
      DeliverShows(s, l, q, p);
    } else {
      OthersShow(s, l, q, p);
    }
  }

  lemma OthersShow(s: Net, l: Label, q: U32, p: U32)
    requires Enabled(s, l) && !l.Deliver?
    ensures Ran(s, l) == []
    ensures Count(TellsNow(s, l, q), NodeNote(p)) == Count(TellsNow(s, l, q), Announces(p)) == Count(TellsNow(s, l, q), Shows(p)) == 0
  {
    hide Count;
    CountNone(TellsNow(s, l, q), NodeNote(p));
    CountNone(TellsNow(s, l, q), Announces(p));
    CountNone(TellsNow(s, l, q), Shows(p));
  }

  lemma DeliverShows(s: Net, l: Label, q: U32, p: U32)
    requires Enabled(s, l) && l.Deliver? && Before(s, l).me == Actor(s, l) && Actor(s, l) != BROADCAST_ADDR
    ensures Count(TellsNow(s, l, q), NodeNote(p)) == Count(Ran(s, l), TextFor(q, p))
    ensures Count(TellsNow(s, l, q), Announces(p)) == Count(Ran(s, l), TextForAll(q, p))
    ensures Count(TellsNow(s, l, q), Shows(p)) <= Count(Ran(s, l), HandledAt(q, p))
  {
    hide Count, HandlePacket, Accepts;
    var told, ran, c := TellsNow(s, l, q), Ran(s, l), s.flying[l.i];
    CountEmpty(NodeNote(p));
    CountEmpty(Announces(p));
    CountEmpty(Shows(p));
    CountEmpty(TextFor(q, p));
    CountEmpty(TextForAll(q, p));
    CountEmpty(HandledAt(q, p));
    CountSingle(c, TextFor(q, p));
    CountSingle(c, TextForAll(q, p));
    CountSingle(c, HandledAt(q, p));
    assert |told| <= 1;
    if |told| == 1 {
      assert told == [told[0]];
      CountSingle(told[0], NodeNote(p));
      CountSingle(told[0], Announces(p));
      CountSingle(told[0], Shows(p));
    }
  }

  /** What has been shown at q so far is what has been handled there. */
  ghost predicate ShownAsHandled(s: Net, q: U32, p: U32) {
    && q in s.nodes
    && Count(s.nodes[q].io.notes, NodeNote(p)) == Count(s.ran, TextFor(q, p))
    && Count(s.nodes[q].io.notes, Announces(p)) == Count(s.ran, TextForAll(q, p))
    && Count(s.nodes[q].io.notes, Shows(p)) <= Count(s.ran, HandledAt(q, p))
  }

  lemma StepShown(t: Topology, s: Net, l: Label, q: U32, p: U32)
    requires Valid(t) && Placed(t, s) && Enabled(s, l) && ShownAsHandled(s, q, p)
    ensures ShownAsHandled(Step(t, s, l), q, p)
  {
    hide Count, Step, ToldIn, Own;
    StepNotes(t, s, l, q);
    StepRan(t, s, l);
    StepShows(t, s, l, q, p);
    var notes, told := s.nodes[q].io.notes, TellsNow(s, l, q);
    CountAppend(notes, told, NodeNote(p));
    CountAppend(notes, told, Announces(p));
    CountAppend(notes, told, Shows(p));
    CountAppend(s.ran, Ran(s, l), TextFor(q, p));
    CountAppend(s.ran, Ran(s, l), TextForAll(q, p));
    CountAppend(s.ran, Ran(s, l), HandledAt(q, p));
  }

  lemma {:induction false} HistoryShown(t: Topology, ss: seq<Net>, ls: seq<Label>, i: nat, q: U32, p: U32)
    requires Valid(t) && IsHistory(t, ss, ls) && i < |ss| && q in t.nbrs
    ensures ShownAsHandled(ss[i], q, p)
  {
    hide Step, Enabled, IsHistory, Placed;
    var env := HistoryStart(t, ss, ls);
    if i > 0 {
      hide ShownAsHandled;
      HistoryShown(t, ss, ls, i - 1, q, p);
      HistoryStep(t, ss, ls, i - 1);
      HistoryPlaced(t, ss, ls, i - 1);
      StepShown(t, ss[i - 1], ls[i - 1], q, p);
    }
  }

  /** In every run, whatever is sent, lost or repeated: a text for one node or for all is shown at a node exactly as often as
      a copy of it is handled there, that is once or not at all, and nothing that came in one packet is shown twice. */
  lemma TextShownOnce(t: Topology, ss: seq<Net>, ls: seq<Label>, i: nat, q: U32, p: U32)
    requires Valid(t) && IsHistory(t, ss, ls) && i < |ss| && q in t.nbrs
    ensures q in ss[i].nodes
    ensures var notes, ran := ss[i].nodes[q].io.notes, ss[i].ran;
            && Count(notes, NodeNote(p)) == Count(ran, TextFor(q, p))
            && Count(notes, Announces(p)) == Count(ran, TextForAll(q, p))
            && Count(notes, Shows(p)) <= Count(ran, HandledAt(q, p)) <= 1
  {
    hide IsHistory, Count;
    HistoryShown(t, ss, ls, i, q, p);
    HandledOnce(t, ss, ls, i, q, p);
  }

  // ---------- acknowledgements over whole runs ----------

  /** The step ends the wait for packet p with a word to the phones of q: an ACK frame for q's own packet, or a timer pass
      that gives up a DATA packet or a user message. */
  ghost predicate EndsWithWord(s: Net, l: Label, q: U32, p: U32)
    requires Enabled(s, l)
  {
    && q in s.nodes && p in s.nodes[q].acks
    && var f := s.nodes[q].acks[p].frame;
       || (Explicit(s, l, q, p) && f.origin == q)
       || (Expired(s, l, q, p) && (f.body.Data? || f.body.UserMsg?))
  }

  function Word(p: U32): Note -> bool {
    (x: Note) => x == BleAck(p) || x == BleAckFailure(p)
  }

  lemma {:induction false} FailureCount(n: Node, ids: seq<U32>, p: U32)
    requires forall i, j | 0 <= i < j < |ids| :: ids[i] != ids[j]
    ensures Count(Failures(ReportedOf(n, ids)), Word(p))
         == if p in ids && Abandoned(n, p) && (n.acks[p].frame.body.Data? || n.acks[p].frame.body.UserMsg?) then 1 else 0
    decreases |ids|
  {
    hide Abandoned, Count, Failures;
    if ids == [] {
      NoFailures(p);
    } else {
      var front, id := ids[..|ids| - 1], ids[|ids| - 1];
      FailureCount(n, front, p);
      FailuresSnoc(ReportedOf(n, front), id, p);
      assert ReportedOf(n, front) + [] == ReportedOf(n, front);
      assert p in ids <==> p in front || p == id;
      assert id !in front;
    }
  }

  lemma NoFailures(p: U32)
    ensures Count(Failures([]), Word(p)) == 0
  {
  }

  lemma FailuresSnoc(ids: seq<U32>, id: U32, p: U32)
    ensures Count(Failures(ids + [id]), Word(p)) == Count(Failures(ids), Word(p)) + if id == p then 1 else 0
  {
    CountOne(Failures(ids), BleAckFailure(id), Word(p));
    assert Failures(ids + [id]) == Failures(ids) + [BleAckFailure(id)];
  }

  lemma {:induction false} ReportedHas(n: Node, ids: seq<U32>, p: U32)
    requires p in ids && Abandoned(n, p) && (n.acks[p].frame.body.Data? || n.acks[p].frame.body.UserMsg?)
    ensures BleAckFailure(p) in Failures(ReportedOf(n, ids))
    decreases |ids|
  {
    hide Abandoned;
    var front, id := ids[..|ids| - 1], ids[|ids| - 1];
    var out := ReportedOf(n, ids);
    if id == p {
      assert Failures(out)[|out| - 1] == BleAckFailure(p);
    } else {
      ReportedHas(n, front, p);
      var j :| 0 <= j < |Failures(ReportedOf(n, front))| && Failures(ReportedOf(n, front))[j] == BleAckFailure(p);
      assert Failures(out)[j] == BleAckFailure(p);
    }
  }

  /** An entry that leaves the buffer does so with exactly one word to the phones, or none: BLE_ACK if an ACK frame ends the
      wait for the node's own packet, BLE_ACK_FAILURE if a timer pass gives up a DATA packet or a user message, and silence
      if a frame merely repeats the ID or the acknowledged packet is another's. Nothing else says such a word. */
  lemma LeavesWith(t: Topology, s: Net, l: Label, q: U32, p: U32)
    requires Placed(t, s) && Enabled(s, l) && q in s.nodes
    ensures Count(TellsNow(s, l, q), Word(p)) == if EndsWithWord(s, l, q, p) then 1 else 0
    ensures p in s.nodes[q].acks && Explicit(s, l, q, p) ==>
              TellsNow(s, l, q) == if s.nodes[q].acks[p].frame.origin == q then [BleAck(p)] else []
    ensures p in s.nodes[q].acks && Implicit(s, l, q, p) ==> TellsNow(s, l, q) == []
    ensures p in s.nodes[q].acks && Expired(s, l, q, p) && (s.nodes[q].acks[p].frame.body.Data? || s.nodes[q].acks[p].frame.body.UserMsg?) ==>
              BleAckFailure(p) in TellsNow(s, l, q)
  {
    hide Count;
    CountEmpty(Word(p));
    if Acts(l) && Actor(s, l) == q {
      OwnMe(s.nodes[q], q);
      if l.Deliver? {
        DeliverWord(s, l, p);
      } else if l.AckTimer? {
        TimerWord(s, l, p);
      }
    }
  }

  lemma DeliverWord(s: Net, l: Label, p: U32)
    requires Enabled(s, l) && l.Deliver? && s.nodes[Actor(s, l)].me == Actor(s, l)
    ensures var q := Actor(s, l);
            && Count(TellsNow(s, l, q), Word(p)) == (if EndsWithWord(s, l, q, p) then 1 else 0)
            && (p in s.nodes[q].acks && Explicit(s, l, q, p) ==>
                  TellsNow(s, l, q) == if s.nodes[q].acks[p].frame.origin == q then [BleAck(p)] else [])
            && (p in s.nodes[q].acks && Implicit(s, l, q, p) ==> TellsNow(s, l, q) == [])
  {
    hide Count, HandlePacket;
    CountEmpty(Word(p));
    var told := TellsNow(s, l, Actor(s, l));
    assert |told| <= 1;
    if |told| == 1 {
      assert told == [told[0]];
      CountSingle(told[0], Word(p));
    }
  }

  lemma TimerWord(s: Net, l: Label, p: U32)
    requires Enabled(s, l) && l.AckTimer?
    ensures var q := l.q;
            && Count(TellsNow(s, l, q), Word(p)) == (if EndsWithWord(s, l, q, p) then 1 else 0)
            && (p in s.nodes[q].acks && Expired(s, l, q, p)
                && (s.nodes[q].acks[p].frame.body.Data? || s.nodes[q].acks[p].frame.body.UserMsg?) ==>
                  BleAckFailure(p) in TellsNow(s, l, q))
  {
    hide Count, Failures, ReportedOf, Ascending;
    var n, ids := Before(s, l), Ascending(s.nodes[l.q].acks.Keys);
    AscendingIsSorted(s.nodes[l.q].acks.Keys);
    FailureCount(n, ids, p);
    assert p in ids <==> p in n.acks;
    if p in n.acks && Abandoned(n, p) && (n.acks[p].frame.body.Data? || n.acks[p].frame.body.UserMsg?) {
      ReportedHas(n, ids, p);
    }
  }

  /** How many of the first i steps ended q's wait for p with a word. */
  ghost function WordsDue(ss: seq<Net>, ls: seq<Label>, q: U32, p: U32, i: nat): nat
    requires i <= |ls| <= |ss| && forall j | 0 <= j < i :: Enabled(ss[j], ls[j])
  {
    if i == 0 then 0 else WordsDue(ss, ls, q, p, i - 1) + if EndsWithWord(ss[i - 1], ls[i - 1], q, p) then 1 else 0
  }

  /** In every run a node has told its phones of an outcome for packet p exactly as often as a wait for p ended with one. */
  lemma {:induction false} WordsKept(t: Topology, ss: seq<Net>, ls: seq<Label>, i: nat, q: U32, p: U32)
    requires Valid(t) && IsHistory(t, ss, ls) && i <= |ls| && q in t.nbrs
    ensures |ss| == |ls| + 1 && q in ss[i].nodes && forall j | 0 <= j < i :: Enabled(ss[j], ls[j])
    ensures Count(ss[i].nodes[q].io.notes, Word(p)) == WordsDue(ss, ls, q, p, i)
  {
    hide Step, Enabled, IsHistory, Placed, Count, EndsWithWord;
    var env := HistoryStart(t, ss, ls);
    CountEmpty(Word(p));
    if i > 0 {
      WordsKept(t, ss, ls, i - 1, q, p);
      HistoryStep(t, ss, ls, i - 1);
      HistoryPlaced(t, ss, ls, i - 1);
      StepWords(t, ss[i - 1], ls[i - 1], q, p);
    }
  }

  lemma StepWords(t: Topology, s: Net, l: Label, q: U32, p: U32)
    requires Placed(t, s) && Enabled(s, l) && q in s.nodes
    ensures q in Step(t, s, l).nodes
    ensures Count(Step(t, s, l).nodes[q].io.notes, Word(p))
         == Count(s.nodes[q].io.notes, Word(p)) + if EndsWithWord(s, l, q, p) then 1 else 0
  {
    hide Count, Step, ToldIn, EndsWithWord, Placed;
    StepNotes(t, s, l, q);
    LeavesWith(t, s, l, q, p);
    CountAppend(s.nodes[q].io.notes, TellsNow(s, l, q), Word(p));
  }
}
