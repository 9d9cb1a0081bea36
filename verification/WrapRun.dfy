/** The hop counter limit is reachable: in a line of 257 nodes one route request,
    flooded from end to end, gives the last node a route of zero hops. */
module WrapRun {
  import opened Packets
  import opened Sessions
  import opened Nodes
  import opened Network
  import opened HopCounts

  const LAST: U32 := 257
  const NOBODY: U32 := 999
  const PACKET: U32 := 77

  // ---------- the line ----------

  function Beside(q: U32): seq<U32>
    requires 1 <= q <= LAST
  {
    if q == 1 then [2] else if q == LAST then [LAST - 1] else [q - 1, q + 1]
  }

  function Line(): Topology {
    Topology(map q: U32 | 1 <= q <= LAST :: Beside(q))
  }

  lemma LineValid()
    ensures Valid(Line())
  {
  }

  function SamePick(k: nat): U32 {
    PACKET
  }

  function Room(k: nat): bool {
    true
  }

  function Inputs(): Env {
    Env(0, SamePick, Room, false)
  }

  /** The request after h hops, as node h + 1 sends it. */
  function Request(h: U8): Frame {
    Frame(BROADCAST_ADDR, h + 1, 1, PACKET, 0, h, Rreq(NOBODY))
  }

  // ---------- the flood along the line ----------

  /** The node has heard nothing yet. */
  predicate Blank(n: Node, q: U32) {
    n.me == q && n.acks == map[] && n.seen == {} && n.routes == map[]
  }

  /** The request is on its way to node k + 1, and nobody from there on has heard it. */
  ghost predicate Reaching(s: Net, k: nat) {
    && 1 <= k < LAST && Placed(Line(), s)
    && |s.flying| > 0 && s.flying[|s.flying| - 1] == Copy(k + 1, Request(k - 1))
    && forall q: U32 | k < q <= LAST :: q in s.nodes && Blank(s.nodes[q], q)
  }

  lemma Asks(n: Node)
    requires n == Awake(Fresh(1, Inputs()), Inputs())
    ensures SendData(n, NOBODY, [], 5, 0).io.air == [Request(0)]
  {
    assert OnAir(Request(0)) == Request(0);
  }

  ghost function FirstLabel(): Label {
    Invoke(1, CallData(NOBODY, [], 5, 0), Inputs())
  }

  /** One node q has acted and put one frame on the air; the copy for its last neighbour comes last. */
  lemma Arrives(s: Net, s': Net, kept: seq<Copy>, q: U32, n': Node, h: U8)
    requires 1 <= q < LAST && h + 1 == q && q in s.nodes && s'.nodes == s.nodes[q := n'] && Placed(Line(), s')
    requires s'.flying == kept + Copies(Beside(q), [Request(h)])
    requires forall x: U32 | q < x <= LAST :: x in s.nodes && Blank(s.nodes[x], x)
    ensures Reaching(s', q)
  {
    OneFrameCopies(Beside(q), Request(h));
    hide Placed, Blank;
    assert Heard(Beside(q), Request(h))[|Beside(q)| - 1] == Copy(q + 1, Request(h));
  }

  lemma FirstStep(s: Net)
    requires s == Start(Line(), Inputs())
    ensures Enabled(s, FirstLabel()) && Reaching(Step(Line(), s, FirstLabel()), 1)
  {
    hide Step, Result, Behaves, Reaching, Copies;
    var l := FirstLabel();
    LineValid();
    StepPlaced(Line(), s, l);
    StepShape(Line(), s, l);
    FirstResult(s);
    Arrives(s, Step(Line(), s, l), [], 1, Result(s, l), 0);
  }

  lemma FirstResult(s: Net)
    requires s == Start(Line(), Inputs())
    ensures Enabled(s, FirstLabel()) && 1 in s.nodes && s.flying == []
    ensures NewFrames(s.nodes[1], Result(s, FirstLabel())) == [Request(0)]
  {
    Asks(Before(s, FirstLabel()));
    hide SendData;
  }

  lemma PassesOn(n: Node, k: nat)
    requires 1 <= k <= 255 && Blank(n, k + 1) && n.io.env == Inputs()
    ensures HandlePacket(n, Request(k - 1)).io.air == n.io.air + [Request(k)]
  {
    var f := Request(k - 1);
    assert Accepts(n, f);
    var m := LearnRreq(n.(seen := n.seen + {f.id}), f);
    assert NOBODY !in m.routes;
    assert HandlePacket(n, f) == Transmit(m, f.(prev := m.me, hops := Inc8(f.hops), dest := BROADCAST_ADDR));
    assert OnAir(Request(k)) == Request(k);
  }

  ghost function NextLabel(s: Net): Label
    requires |s.flying| > 0
  {
    Deliver(|s.flying| - 1, Inputs())
  }

  lemma NextStep(s: Net, k: nat)
    requires Reaching(s, k) && k + 1 < LAST
    ensures |s.flying| > 0 && Enabled(s, NextLabel(s)) && Reaching(Step(Line(), s, NextLabel(s)), k + 1) && NoWrap(s, NextLabel(s))
  {
    hide Step, Result, Behaves, Reaching, Copies, Own;
    NextResult(s, k);
    var l := NextLabel(s);
    LineValid();
    StepPlaced(Line(), s, l);
    StepShape(Line(), s, l);
    Arrives(s, Step(Line(), s, l), Consumed(s, l), k + 1, Result(s, l), k);
  }

  lemma NextResult(s: Net, k: nat)
    requires Reaching(s, k) && k + 1 < LAST
    ensures |s.flying| > 0 && Enabled(s, NextLabel(s)) && NoWrap(s, NextLabel(s)) && Placed(Line(), s)
    ensures Actor(s, NextLabel(s)) == k + 1 && k + 1 in s.nodes
    ensures NewFrames(s.nodes[k + 1], Result(s, NextLabel(s))) == [Request(k)]
    ensures forall x: U32 | k + 1 < x <= LAST :: x in s.nodes && Blank(s.nodes[x], x)
  {
    PassesOn(Before(s, NextLabel(s)), k);
    hide HandlePacket, Own, Line;
  }

  /** A run in which the request has come as far as node k + 1 without any counter wrapping. */
  lemma {:induction false} Reach(k: nat) returns (ss: seq<Net>, ls: seq<Label>)
    requires 1 <= k < LAST
    ensures IsHistory(Line(), ss, ls) && |ss| == |ls| + 1 && Reaching(ss[|ls|], k)
    ensures forall j | 0 <= j < |ls| :: NoWrap(ss[j], ls[j])
  {
    hide Step, Enabled, Reaching, NoWrap, IsHistory;
    if k == 1 {
      var s := Start(Line(), Inputs());
      FirstStep(s);
      HistoryBegin(Line(), Inputs());
      HistoryExtend(Line(), [s], [], FirstLabel());
      ss, ls := [s, Step(Line(), s, FirstLabel())], [FirstLabel()];
      assert [s] + [Step(Line(), s, FirstLabel())] == ss && [] + [FirstLabel()] == ls;
      InvokeNoWrap(s);
    } else {
      var ss0, ls0 := Reach(k - 1);
      var s := ss0[|ls0|];
      ReachingFlies(s, k - 1);
      NextStep(s, k - 1);
      HistoryExtend(Line(), ss0, ls0, NextLabel(s));
      ss, ls := ss0 + [Step(Line(), s, NextLabel(s))], ls0 + [NextLabel(s)];
    }
  }

  lemma InvokeNoWrap(s: Net)
    ensures NoWrap(s, FirstLabel())
  {
  }

  lemma ReachingFlies(s: Net, k: nat)
    requires Reaching(s, k)
    ensures |s.flying| > 0
  {
  }

  lemma WrapsAtTheEnd(s: Net)
    requires Reaching(s, LAST - 1)
    ensures |s.flying| > 0 && Enabled(s, NextLabel(s)) && !NoWrap(s, NextLabel(s))
  {
  }

  /** There is a run from empty tables in which every route is backed by a walk of its length, and one more
      delivery after which one is not. */
  lemma WrapIsReachable() returns (ss: seq<Net>, ls: seq<Label>, l: Label)
    ensures Valid(Line()) && IsHistory(Line(), ss, ls) && |ss| == |ls| + 1 && Enabled(ss[|ls|], l)
    ensures Backed(Line(), ss[|ls|]) && !Backed(Line(), Step(Line(), ss[|ls|], l))
  {
    hide Step, Reaching, NoWrap, IsHistory, Backed, Valid, Line;
    LineValid();
    ss, ls := Reach(LAST - 1);
    HopCountsAreWalks(Line(), ss, ls, |ls|);
    WrapsAtTheEnd(ss[|ls|]);
    l := NextLabel(ss[|ls|]);
    StepBackedIff(Line(), ss[|ls|], l);
  }
}
