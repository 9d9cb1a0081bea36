/** The loop is reachable: in a line of four nodes an unanswered retry budget, the error report it leads to,
    and one route request later, two neighbours route a third node through each other. */
module LoopRun {
  import opened Packets
  import opened Sessions
  import opened Nodes
  import opened Effects
  import opened Network
  import opened LoopFreedom
  import Ordered

  /** 1 - 2 - 3 - 4 */
  function Mesh(): Topology {
    Topology(map[1 := [2], 2 := [3, 1], 3 := [4, 2], 4 := [3]])
  }

  lemma MeshValid()
    ensures Valid(Mesh())
  {
  }

  /** Clock and drawn ID of one activation; the radio queue has room. */
  function Inputs(clock: U32, id: U32): Env {
    Env(clock, (k: nat) => id, (k: nat) => true, false)
  }

  // ---------- what is followed of each node ----------

  datatype View = View(routes: Routes, seen: set<U32>, acks: map<U32, AckEntry>)

  ghost function ViewOf(n: Node): View {
    View(n.routes, n.seen, n.acks)
  }

  const BLANK := View(map[], {}, map[])

  ghost predicate Scene(s: Net, v1: View, v2: View, v3: View) {
    && 1 in s.nodes && ViewOf(s.nodes[1]) == v1
    && 2 in s.nodes && ViewOf(s.nodes[2]) == v2
    && 3 in s.nodes && ViewOf(s.nodes[3]) == v3
  }

  /** The latest copies in flight are those of f, sent by node q. */
  ghost predicate InAir(s: Net, q: U32, f: Frame)
    requires q in Mesh().nbrs
  {
    var cs := Heard(Mesh().nbrs[q], f);
    |cs| <= |s.flying| && s.flying[|s.flying| - |cs|..] == cs
  }

  // ---------- the frames ----------

  function Beacon(prev: U32, hops: U8): Frame {
    Frame(BROADCAST_ADDR, prev, 4, 101, 0, hops, Info(0, 0, []))
  }

  function Message(dest: U32, prev: U32, hops: U8): Frame {
    Frame(dest, prev, 2, 99, REQ_ACK, hops, Data(4, []))
  }

  const RECEIPT := Frame(2, 3, 3, 102, 0, 0, Ack(99))
  const REPORT := Frame(2, 3, 2, 103, 0, 0, Rerr(3, 3, 4, 99))
  const REQUEST := Frame(BROADCAST_ADDR, 2, 2, 104, 0, 0, Rreq(4))
  const REPLY := Frame(2, 1, 2, 105, 0, 0, Rrep(4, 3))

  // ---------- the tables ----------

  const R1 := map[2 := Route(2, 1), 4 := Route(2, 3)]
  const R2 := map[3 := Route(3, 1), 4 := Route(3, 2)]
  const R3 := map[4 := Route(4, 1)]

  // ---------- what each node does ----------

  lemma BeaconSent(n: Node)
    requires n.me == 4 && n.users == EMPTY && n.io.env == Inputs(0, 101)
    ensures SendBroadcastInfo(n).io.air == n.io.air + [Beacon(4, 0)]
  {
    hide Ordered.Ascending, Chunks;
  }

  /** The beacon is learned from and passed on. */
  lemma BeaconHeard(n: Node, prev: U32, hops: U8)
    requires n.me != 4 && n.me != prev && hops < 3 && n.io.env == Inputs(0, 101) && ViewOf(n) == BLANK
    ensures var n' := HandlePacket(n, Beacon(prev, hops));
            && ViewOf(n') == View(Learned(n.me, map[], Beacon(prev, hops)), {101}, map[])
            && n'.io.air == n.io.air + [Beacon(n.me, hops + 1)]
  {
    hide LearnInfo, Learned;
    var f := Beacon(prev, hops);
    var m := n.(seen := n.seen + {f.id});
    LearnRoutes(m, f);
    LearnOnlyLearns(m, f);
    assert OnAir(Beacon(n.me, hops + 1)) == Beacon(n.me, hops + 1);
    assert HandlePacket(n, f) == Transmit(LearnInfo(m, f), Beacon(n.me, hops + 1));
  }

  lemma BeaconTables()
    ensures Learned(3, map[], Beacon(4, 0)) == R3 && Learned(2, map[], Beacon(3, 1)) == R2 && Learned(1, map[], Beacon(2, 2)) == R1
  {
  }

  lemma MessageSent(n: Node)
    requires n.me == 2 && n.io.env == Inputs(0, 101) && ViewOf(n) == View(R2, {101}, map[])
    ensures var n' := SendData(n, 4, [], 99, REQ_ACK);
            && ViewOf(n') == View(R2, {101}, map[99 := AckEntry(Message(3, 2, 0), 3, 0, 0)])
            && n'.io.air == n.io.air + [Message(3, 2, 0)]
  {
    assert OnAir(Message(3, 2, 0)) == Message(3, 2, 0);
    assert SendData(n, 4, [], 99, REQ_ACK) == Transmit(n, Message(3, 2, 0));
  }

  function Waiting(since: U32, attempts: U8): map<U32, AckEntry> {
    map[99 := AckEntry(Message(4, 3, 1), 4, since, attempts)]
  }

  /** Node 3 acknowledges the message, passes it on to 4 and remembers it. */
  lemma MessageHeard(n: Node)
    requires n.me == 3 && n.io.env == Inputs(0, 102) && ViewOf(n) == View(R3, {101}, map[])
    ensures var n' := HandlePacket(n, Message(3, 2, 0));
            && ViewOf(n') == View(R3, {101, 99}, Waiting(0, 0))
            && n'.io.air == n.io.air + [RECEIPT, Message(4, 3, 1)]
  {
    var f, g := Message(3, 2, 0), Message(4, 3, 1);
    var m := n.(seen := n.seen + {f.id});
    assert OnAir(g) == g && OnAir(RECEIPT) == RECEIPT;
    var a := SendAck(m, 2, 99);
    assert a.io.air == n.io.air + [RECEIPT] && ViewOf(a) == View(R3, {101, 99}, map[]);
    assert HandlePacket(n, f) == Transmit(a, g);
  }

  lemma OneKey(n: Node)
    requires n.acks.Keys == {99}
    ensures Ordered.Ascending(n.acks.Keys) == [99]
  {
    Ordered.AscendingIsSorted(n.acks.Keys);
  }

  lemma OneSwept(n: Node)
    requires 99 in n.acks
    ensures Sweep(n, [99]) == Swept(SweepOne(n, 99), Spent(n, 99))
  {
    assert [99][..0] == [];
  }

  /** Three ticks of 3000 pass without an acknowledgement from 4. */
  lemma MessageRetried(n: Node, k: nat, garbled: U32 -> U32)
    requires k < 3 && n.me == 3 && n.io.env == Inputs(3000 * k + 3000, 102) && ViewOf(n) == View(R3, {101, 99}, Waiting(3000 * k, k))
    ensures var n' := CleanupAcks(n, garbled);
            && ViewOf(n') == View(R3, {101, 99}, Waiting(3000 * k + 3000, k + 1))
            && n'.io.air == n.io.air + [Message(4, 3, 1)]
  {
    OneKey(n);
    OneSwept(n);
    hide Ordered.Ascending, Sweep;
  }

  function Misread(id: U32): U32 {
    4
  }

  /** The fourth pass gives up and reports to the sender. */
  lemma MessageGivenUp(n: Node)
    requires n.me == 3 && n.io.env == Inputs(12000, 103) && ViewOf(n) == View(R3, {101, 99}, Waiting(9000, 3))
    ensures var n' := CleanupAcks(n, Misread);
            && ViewOf(n') == View(R3, {101, 99}, map[])
            && n'.io.air == n.io.air + [REPORT]
  {
    OneKey(n);
    OneSwept(n);
    hide Ordered.Ascending, Sweep;
    assert OnAir(REPORT) == REPORT;
    var m := SweepOne(n, 99);
    var es := [(99 as U32, n.acks[99])];
    assert es[..0] == [];
    assert ReportAll(m, es, Misread) == ReportExpired(m, 99, n.acks[99], Misread);
  }

  lemma ReportHeard(n: Node, acks: map<U32, AckEntry>)
    requires n.me == 2 && ViewOf(n) == View(R2, {101}, acks) && acks.Keys == {99}
    ensures var n' := HandlePacket(n, REPORT);
            && ViewOf(n') == View(R2 - {4}, {101, 103}, acks)
            && n'.io.air == n.io.air
  {
  }

  lemma RequestSent(n: Node, acks: map<U32, AckEntry>)
    requires n.me == 2 && n.io.env == Inputs(12000, 104) && ViewOf(n) == View(R2 - {4}, {101, 103}, acks)
    ensures var n' := SendData(n, 4, [], 98, 0);
            && ViewOf(n') == ViewOf(n) && n'.io.air == n.io.air + [REQUEST]
  {
    assert OnAir(REQUEST) == REQUEST;
  }

  lemma RequestHeard(n: Node)
    requires n.me == 1 && n.io.env == Inputs(12000, 105) && ViewOf(n) == View(R1, {101}, map[])
    ensures var n' := HandlePacket(n, REQUEST);
            && ViewOf(n') == View(R1, {101, 104}, map[]) && n'.io.air == n.io.air + [REPLY]
  {
    assert OnAir(REPLY) == REPLY;
    var m := LearnRreq(n.(seen := n.seen + {104}), REQUEST);
    assert m.routes == R1;
    assert HandlePacket(n, REQUEST) == Transmit(Drew(m), REPLY);
  }

  lemma ReplyHeard(n: Node, acks: map<U32, AckEntry>)
    requires n.me == 2 && ViewOf(n) == View(R2 - {4}, {101, 103}, acks) && acks.Keys == {99}
    ensures HandlePacket(n, REPLY).routes == map[3 := Route(3, 1), 4 := Route(1, 4), 1 := Route(1, 1)]
  {
    HandlePacketBehaves(n, REPLY);
    assert Accepts(n, REPLY);
    BehavesRoutesHere(Context(n, REPLY), n, HandlePacket(n, REPLY));
    hide HandlePacket, Behaves;
  }

  lemma BehavesRoutesHere(c: Ctx, n: Node, n': Node)
    requires Behaves(c, n, n')
    ensures n'.routes == c.routes
  {
  }

  // ---------- the run ----------

  /** One node acts and puts fs on the air. */
  lemma Acted(s: Net, l: Label, q: U32, fs: seq<Frame>)
    requires Placed(Mesh(), s) && Enabled(s, l) && Acts(l) && Actor(s, l) == q && q in s.nodes
    requires Result(s, l).io.air == s.nodes[q].io.air + fs
    ensures q in Mesh().nbrs
    ensures var s' := Step(Mesh(), s, l);
            && s'.nodes == s.nodes[q := Result(s, l)]
            && (|fs| == 1 ==> InAir(s', q, fs[0]))
  {
    hide Step, Result, Behaves, Own, Mesh, Copies, Heard;
    StepShape(Mesh(), s, l);
    assert NewFrames(s.nodes[q], Result(s, l)) == fs;
    if |fs| == 1 {
      assert fs == [fs[0]];
      OneFrameCopies(Mesh().nbrs[q], fs[0]);
    }
  }

  ghost function FromEnd(s: Net, k: nat, env: Env): Label
    requires k <= |s.flying|
  {
    Deliver(|s.flying| - k, env)
  }

  lemma Step0(s: Net)
    requires s == Start(Mesh(), Inputs(0, 101))
    ensures var l := Invoke(4, CallBeacon, Inputs(0, 101));
            var s' := Step(Mesh(), s, l);
            Enabled(s, l) && Scene(s', BLANK, BLANK, BLANK) && InAir(s', 4, Beacon(4, 0))
  {
    MeshValid();
    var l := Invoke(4, CallBeacon, Inputs(0, 101));
    BeaconSent(Before(s, l));
    hide SendBroadcastInfo, Step;
    Acted(s, l, 4, [Beacon(4, 0)]);
  }

  lemma Step1(s: Net)
    requires Placed(Mesh(), s) && Scene(s, BLANK, BLANK, BLANK) && InAir(s, 4, Beacon(4, 0))
    ensures |s.flying| >= 1
    ensures var l := FromEnd(s, 1, Inputs(0, 101));
            var s' := Step(Mesh(), s, l);
            Enabled(s, l) && Scene(s', BLANK, BLANK, View(R3, {101}, map[])) && InAir(s', 3, Beacon(3, 1))
  {
    hide HandlePacket, Step, Learned;
    var l := FromEnd(s, 1, Inputs(0, 101));
    assert s.flying[|s.flying| - 1] == Heard([3], Beacon(4, 0))[0];
    BeaconHeard(Before(s, l), 4, 0);
    BeaconTables();
    Acted(s, l, 3, [Beacon(3, 1)]);
  }

  lemma Step2(s: Net)
    requires Placed(Mesh(), s) && Scene(s, BLANK, BLANK, View(R3, {101}, map[])) && InAir(s, 3, Beacon(3, 1))
    ensures |s.flying| >= 1
    ensures var l := FromEnd(s, 1, Inputs(0, 101));
            var s' := Step(Mesh(), s, l);
            Enabled(s, l) && Scene(s', BLANK, View(R2, {101}, map[]), View(R3, {101}, map[])) && InAir(s', 2, Beacon(2, 2))
  {
    hide HandlePacket, Step, Learned;
    var l := FromEnd(s, 1, Inputs(0, 101));
    assert s.flying[|s.flying| - 1] == Heard([4, 2], Beacon(3, 1))[1];
    BeaconHeard(Before(s, l), 3, 1);
    BeaconTables();
    Acted(s, l, 2, [Beacon(2, 2)]);
  }

  /** Everybody knows the way to 4. */
  lemma Step3(s: Net)
    requires Placed(Mesh(), s) && Scene(s, BLANK, View(R2, {101}, map[]), View(R3, {101}, map[])) && InAir(s, 2, Beacon(2, 2))
    ensures |s.flying| >= 1
    ensures var l := FromEnd(s, 1, Inputs(0, 101));
            var s' := Step(Mesh(), s, l);
            Enabled(s, l) && Scene(s', View(R1, {101}, map[]), View(R2, {101}, map[]), View(R3, {101}, map[]))
  {
    hide HandlePacket, Step, Learned;
    var l := FromEnd(s, 1, Inputs(0, 101));
    assert s.flying[|s.flying| - 1] == Heard([3, 1], Beacon(2, 2))[1];
    BeaconHeard(Before(s, l), 2, 2);
    BeaconTables();
    Acted(s, l, 1, [Beacon(1, 3)]);
  }

  const ASKED := map[99 := AckEntry(Message(3, 2, 0), 3, 0, 0)]

  /** Node 2 sends its message for 4, with an acknowledgement request. */
  lemma Step4(s: Net)
    requires Placed(Mesh(), s) && Scene(s, View(R1, {101}, map[]), View(R2, {101}, map[]), View(R3, {101}, map[]))
    ensures var l := Invoke(2, CallData(4, [], 99, REQ_ACK), Inputs(0, 101));
            var s' := Step(Mesh(), s, l);
            && Enabled(s, l) && Scene(s', View(R1, {101}, map[]), View(R2, {101}, ASKED), View(R3, {101}, map[]))
            && InAir(s', 2, Message(3, 2, 0))
  {
    var l := Invoke(2, CallData(4, [], 99, REQ_ACK), Inputs(0, 101));
    MessageSent(Before(s, l));
    hide SendData, Step;
    Acted(s, l, 2, [Message(3, 2, 0)]);
  }

  lemma Step5(s: Net)
    requires Placed(Mesh(), s) && Scene(s, View(R1, {101}, map[]), View(R2, {101}, ASKED), View(R3, {101}, map[]))
    requires InAir(s, 2, Message(3, 2, 0))
    ensures |s.flying| >= 2
    ensures var l := FromEnd(s, 2, Inputs(0, 102));
            var s' := Step(Mesh(), s, l);
            Enabled(s, l) && Scene(s', View(R1, {101}, map[]), View(R2, {101}, ASKED), View(R3, {101, 99}, Waiting(0, 0)))
  {
    var l := FromEnd(s, 2, Inputs(0, 102));
    assert s.flying[|s.flying| - 2] == Heard([3, 1], Message(3, 2, 0))[0];
    MessageHeard(Before(s, l));
    hide HandlePacket, Step;
    Acted(s, l, 3, [RECEIPT, Message(4, 3, 1)]);
  }

  /** A timer pass at node 3 sends the message to 4 once more. */
  lemma Step6(s: Net, k: nat)
    requires k < 3 && Placed(Mesh(), s)
    requires Scene(s, View(R1, {101}, map[]), View(R2, {101}, ASKED), View(R3, {101, 99}, Waiting(3000 * k, k)))
    ensures var l := AckTimer(3, Inputs(3000 * k + 3000, 102), Misread);
            var s' := Step(Mesh(), s, l);
            && Enabled(s, l)
            && Scene(s', View(R1, {101}, map[]), View(R2, {101}, ASKED), View(R3, {101, 99}, Waiting(3000 * k + 3000, k + 1)))
  {
    var l := AckTimer(3, Inputs(3000 * k + 3000, 102), Misread);
    MessageRetried(Before(s, l), k, Misread);
    hide CleanupAcks, Step;
    Acted(s, l, 3, [Message(4, 3, 1)]);
  }

  lemma Step9(s: Net)
    requires Placed(Mesh(), s) && Scene(s, View(R1, {101}, map[]), View(R2, {101}, ASKED), View(R3, {101, 99}, Waiting(9000, 3)))
    ensures var l := AckTimer(3, Inputs(12000, 103), Misread);
            var s' := Step(Mesh(), s, l);
            && Enabled(s, l) && Scene(s', View(R1, {101}, map[]), View(R2, {101}, ASKED), View(R3, {101, 99}, map[]))
            && InAir(s', 3, REPORT)
  {
    var l := AckTimer(3, Inputs(12000, 103), Misread);
    MessageGivenUp(Before(s, l));
    hide CleanupAcks, Step;
    Acted(s, l, 3, [REPORT]);
  }

  /** Node 2 loses its route to 4; node 1 keeps the one that goes through 2. */
  lemma Step10(s: Net)
    requires Placed(Mesh(), s) && Scene(s, View(R1, {101}, map[]), View(R2, {101}, ASKED), View(R3, {101, 99}, map[]))
    requires InAir(s, 3, REPORT)
    ensures |s.flying| >= 1
    ensures var l := FromEnd(s, 1, Inputs(12000, 103));
            var s' := Step(Mesh(), s, l);
            && Enabled(s, l) && StrandsEntry(s, l)
            && Scene(s', View(R1, {101}, map[]), View(R2 - {4}, {101, 103}, ASKED), View(R3, {101, 99}, map[]))
  {
    var l := FromEnd(s, 1, Inputs(12000, 103));
    assert s.flying[|s.flying| - 1] == Heard([4, 2], REPORT)[1];
    ReportHeard(Before(s, l), ASKED);
    assert TablesOf(s)[1][4].nextHop == 2;
    hide HandlePacket, Step;
    Acted(s, l, 2, []);
  }

  lemma Step11(s: Net)
    requires Placed(Mesh(), s)
    requires Scene(s, View(R1, {101}, map[]), View(R2 - {4}, {101, 103}, ASKED), View(R3, {101, 99}, map[]))
    ensures var l := Invoke(2, CallData(4, [], 98, 0), Inputs(12000, 104));
            var s' := Step(Mesh(), s, l);
            && Enabled(s, l) && InAir(s', 2, REQUEST)
            && Scene(s', View(R1, {101}, map[]), View(R2 - {4}, {101, 103}, ASKED), View(R3, {101, 99}, map[]))
  {
    var l := Invoke(2, CallData(4, [], 98, 0), Inputs(12000, 104));
    RequestSent(Before(s, l), ASKED);
    hide SendData, Step;
    Acted(s, l, 2, [REQUEST]);
  }

  lemma Step12(s: Net)
    requires Placed(Mesh(), s) && InAir(s, 2, REQUEST)
    requires Scene(s, View(R1, {101}, map[]), View(R2 - {4}, {101, 103}, ASKED), View(R3, {101, 99}, map[]))
    ensures |s.flying| >= 1
    ensures var l := FromEnd(s, 1, Inputs(12000, 105));
            var s' := Step(Mesh(), s, l);
            && Enabled(s, l) && InAir(s', 1, REPLY)
            && Scene(s', View(R1, {101, 104}, map[]), View(R2 - {4}, {101, 103}, ASKED), View(R3, {101, 99}, map[]))
  {
    var l := FromEnd(s, 1, Inputs(12000, 105));
    assert s.flying[|s.flying| - 1] == Heard([3, 1], REQUEST)[1];
    RequestHeard(Before(s, l));
    hide HandlePacket, Step;
    Acted(s, l, 1, [REPLY]);
  }

  /** The answer closes the loop. */
  lemma Step13(s: Net)
    requires Placed(Mesh(), s) && InAir(s, 1, REPLY)
    requires Scene(s, View(R1, {101, 104}, map[]), View(R2 - {4}, {101, 103}, ASKED), View(R3, {101, 99}, map[]))
    ensures |s.flying| >= 1
    ensures var l := FromEnd(s, 1, Inputs(12000, 106));
            Enabled(s, l) && Looped(TablesOf(Step(Mesh(), s, l)))
  {
    var l := FromEnd(s, 1, Inputs(12000, 106));
    assert s.flying[|s.flying| - 1] == Heard([2], REPLY)[0];
    ReplyHeard(Before(s, l), ASKED);
    hide HandlePacket, Step;
    TablesStep(Mesh(), s, l);
    assert TablesOf(s)[1] == R1;
  }

  /** Nodes 1 and 2 route 4 through each other. */
  ghost predicate Looped(tab: Tables) {
    1 in tab && 2 in tab && 4 in tab[1] && 4 in tab[2] && tab[1][4].nextHop == 2 && tab[2][4].nextHop == 1
  }

  /** One more step of a run. */
  lemma Go(ss0: seq<Net>, ls0: seq<Label>, l: Label) returns (ss: seq<Net>, ls: seq<Label>)
    requires IsHistory(Mesh(), ss0, ls0) && |ss0| == |ls0| + 1 && Enabled(ss0[|ls0|], l)
    ensures IsHistory(Mesh(), ss, ls) && |ss| == |ls| + 1 && ss[|ls|] == Step(Mesh(), ss0[|ls0|], l)
    ensures Placed(Mesh(), ss[|ls|])
  {
    hide Step, Enabled, IsHistory, Placed, Mesh;
    HistoryExtend(Mesh(), ss0, ls0, l);
    ss, ls := ss0 + [Step(Mesh(), ss0[|ls0|], l)], ls0 + [l];
    MeshValid();
    HistoryPlaced(Mesh(), ss, ls, |ls|);
  }

  /** Beacon and message: node 3 waits for an acknowledgement from 4. */
  lemma FirstHalf() returns (ss: seq<Net>, ls: seq<Label>)
    ensures IsHistory(Mesh(), ss, ls) && |ss| == |ls| + 1 && Placed(Mesh(), ss[|ls|])
    ensures Scene(ss[|ls|], View(R1, {101}, map[]), View(R2, {101}, ASKED), View(R3, {101, 99}, Waiting(0, 0)))
  {
    hide Step, Enabled, IsHistory, Placed, Mesh, Scene, InAir, R1, R2, R3, ASKED, BLANK;
    HistoryBegin(Mesh(), Inputs(0, 101));
    ss, ls := [Start(Mesh(), Inputs(0, 101))], [];
    Step0(ss[|ls|]);
    ss, ls := Go(ss, ls, Invoke(4, CallBeacon, Inputs(0, 101)));
    Step1(ss[|ls|]);
    ss, ls := Go(ss, ls, FromEnd(ss[|ls|], 1, Inputs(0, 101)));
    Step2(ss[|ls|]);
    ss, ls := Go(ss, ls, FromEnd(ss[|ls|], 1, Inputs(0, 101)));
    Step3(ss[|ls|]);
    ss, ls := Go(ss, ls, FromEnd(ss[|ls|], 1, Inputs(0, 101)));
    Step4(ss[|ls|]);
    ss, ls := Go(ss, ls, Invoke(2, CallData(4, [], 99, REQ_ACK), Inputs(0, 101)));
    Step5(ss[|ls|]);
    ss, ls := Go(ss, ls, FromEnd(ss[|ls|], 2, Inputs(0, 102)));
  }

  /** Three retries, then the error report reaches node 2. */
  lemma SecondHalf() returns (ss: seq<Net>, ls: seq<Label>)
    ensures IsHistory(Mesh(), ss, ls) && |ss| == |ls| + 1 && Placed(Mesh(), ss[|ls|])
    ensures Scene(ss[|ls|], View(R1, {101}, map[]), View(R2 - {4}, {101, 103}, ASKED), View(R3, {101, 99}, map[]))
  {
    hide Step, Enabled, IsHistory, Placed, Mesh, Scene, InAir, R1, R2, R3, ASKED;
    ss, ls := FirstHalf();
    Step6(ss[|ls|], 0);
    ss, ls := Go(ss, ls, AckTimer(3, Inputs(3000, 102), Misread));
    Step6(ss[|ls|], 1);
    ss, ls := Go(ss, ls, AckTimer(3, Inputs(6000, 102), Misread));
    Step6(ss[|ls|], 2);
    ss, ls := Go(ss, ls, AckTimer(3, Inputs(9000, 102), Misread));
    Step9(ss[|ls|]);
    ss, ls := Go(ss, ls, AckTimer(3, Inputs(12000, 103), Misread));
    Step10(ss[|ls|]);
    ss, ls := Go(ss, ls, FromEnd(ss[|ls|], 1, Inputs(12000, 103)));
  }

  /** There is a run from empty tables after which neither 1 nor 2 ever reaches 4 by following next hops. (The
      report names 4 as the destination because the bytes it is read from happen to say so.) */
  lemma LoopIsReachable() returns (ss: seq<Net>, ls: seq<Label>)
    ensures Valid(Mesh()) && IsHistory(Mesh(), ss, ls) && |ss| == |ls| + 1
    ensures var tab := TablesOf(ss[|ls|]);
            && 1 in tab && 4 in tab[1] && 2 in tab && 4 in tab[2]
            && forall k: nat :: !Arrives(tab, 1, 4, k) && !Arrives(tab, 2, 4, k)
  {
    hide Step, Enabled, IsHistory, Placed, Mesh, Scene, InAir, R1, R2, R3, ASKED, Valid, TablesOf;
    MeshValid();
    ss, ls := SecondHalf();
    Step11(ss[|ls|]);
    ss, ls := Go(ss, ls, Invoke(2, CallData(4, [], 98, 0), Inputs(12000, 104)));
    Step12(ss[|ls|]);
    ss, ls := Go(ss, ls, FromEnd(ss[|ls|], 1, Inputs(12000, 105)));
    Step13(ss[|ls|]);
    ss, ls := Go(ss, ls, FromEnd(ss[|ls|], 1, Inputs(12000, 106)));
    var tab := TablesOf(ss[|ls|]);
    forall k: nat ensures !Arrives(tab, 1, 4, k) && !Arrives(tab, 2, 4, k) {
      NeverArrives(tab, 1, 2, 4, 1, k);
      NeverArrives(tab, 1, 2, 4, 2, k);
    }
  }
}
