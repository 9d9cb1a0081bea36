/** The acknowledgement ledger over whole runs, and what a cleanup pass does to the buffer. */
module AckOutcomes {
  import opened Packets
  import opened Ordered
  import opened Nodes
  import opened Effects
  import opened AckLedger
  import opened Network

  ghost predicate Balanced(n: Node) {
    Keyed(n) && forall p: U32 :: Ledger(n, p)
  }

  lemma ApiLedger(n: Node, call: ApiCall, p: U32)
    requires Ledger(n, p)
    ensures Ledger(Api(n, call), p)
  {
    var watch := if call.CallData? || call.CallUserMsg? then OtherThan(call.id) else 0;
    ApiEmits(Ctx(n.me, n.routes, Call, watch, p), n, call);
    hide Api;
  }

  lemma ResultBalanced(s: Net, l: Label)
    requires Enabled(s, l) && Acts(l) && Balanced(Before(s, l))
    ensures forall p: U32 :: Ledger(Result(s, l), p)
  {
    hide Ledger, Api, HandlePacket, CleanupAcks, Keyed;
    var n := Before(s, l);
    forall p: U32 ensures Ledger(Result(s, l), p) {
      match l
      case Deliver(i, _) => HandlePacketLedger(n, s.flying[i].frame, p);
      case Invoke(_, call, _) => ApiLedger(n, call, p);
      case AckTimer(_, _, garbled) => CleanupLedger(n, garbled, p);
    }
  }

  lemma AwakeBalanced(n: Node, env: Env, q: U32)
    requires Own(n, q) && forall p: U32 :: Ledger(n, p)
    ensures Balanced(Awake(n, env))
  {
    forall p: U32 ensures Ledger(Awake(n, env), p) {
      assert Ledger(n, p);
    }
  }

  ghost predicate AllBalanced(s: Net) {
    forall q, p: U32 | q in s.nodes :: Ledger(s.nodes[q], p)
  }

  lemma StepBalanced(t: Topology, s: Net, l: Label)
    requires Placed(t, s) && AllBalanced(s) && Enabled(s, l)
    ensures AllBalanced(Step(t, s, l))
  {
    if Acts(l) {
      StepShape(t, s, l);
      hide Ledger, Result, Behaves, Step;
      AwakeBalanced(s.nodes[Actor(s, l)], l.env, Actor(s, l));
      ResultBalanced(s, l);
    }
  }

  lemma {:induction false} HistoryBalanced(t: Topology, ss: seq<Net>, ls: seq<Label>, i: nat)
    requires Valid(t) && IsHistory(t, ss, ls) && i < |ss|
    ensures AllBalanced(ss[i])
  {
    hide Step, Enabled, IsHistory;
    var _ := HistoryStart(t, ss, ls);
    if i > 0 {
      HistoryBalanced(t, ss, ls, i - 1);
      HistoryStep(t, ss, ls, i - 1);
      HistoryPlaced(t, ss, ls, i - 1);
      StepBalanced(t, ss[i - 1], ls[i - 1]);
    }
  }

  /** Over every run: a packet handed off once with a request for acknowledgement gets at most one
      outcome, none while it is pending, and goes on the air at most four times. */
  lemma OneOutcome(t: Topology, ss: seq<Net>, ls: seq<Label>, i: nat, q: U32, p: U32)
    requires Valid(t) && IsHistory(t, ss, ls) && i < |ss| && q in ss[i].nodes
    requires CountAsk(ss[i].nodes[q].io.handed, p) <= 1
    ensures var n := ss[i].nodes[q];
            && Outcomes(n.io.notes, p) <= 1
            && (p in n.acks ==> Outcomes(n.io.notes, p) == 0)
            && CountAsk(n.io.air, p) <= 1 + MAX_RETRANS
  {
    hide IsHistory;
    HistoryBalanced(t, ss, ls, i);
    assert Ledger(ss[i].nodes[q], p);
  }

  // ---------- one cleanup pass ----------

  /** The entry for id among the expired ones, if it is there. */
  predicate Reported(es: seq<(U32, AckEntry)>, id: U32, e: AckEntry) {
    (id, e) in es
  }

  /** A sweep changes nothing it has not been asked to look at. */
  lemma {:induction false} SweepFrame(n: Node, ids: seq<U32>, id: U32)
    requires id !in ids
    ensures var s := Sweep(n, ids);
            && (id in s.node.acks <==> id in n.acks)
            && (id in n.acks ==> s.node.acks[id] == n.acks[id])
            && s.node.io.env == n.io.env
            && (forall k | 0 <= k < |s.expired| :: s.expired[k].0 != id)
    decreases |ids|
  {
    if ids != [] {
      SweepFrame(n, ids[..|ids| - 1], id);
    }
  }

  /** Which of the offers to the radio queue the sweep makes for this entry, if it makes one. */
  ghost function Offer(n: Node, ids: seq<U32>, id: U32): nat
    decreases |ids|
  {
    if ids == [] then n.io.offered
    else if ids[|ids| - 1] == id then Sweep(n, ids[..|ids| - 1]).node.io.offered
    else Offer(n, ids[..|ids| - 1], id)
  }

  /** Each entry meets exactly one fate: kept as it is while its time is not up; kept with one more
      attempt and a new timestamp if the radio queue accepts it, and as it is if not; or, its
      retries spent, taken out and reported. */
  ghost predicate Fate(n: Node, s: Swept, id: U32, e: AckEntry, accepted: bool) {
    var now := n.io.env.clock;
    if !Overdue(e, now) then id in s.node.acks && s.node.acks[id] == e && !Reported(s.expired, id, e)
    else if e.attempts < MAX_RETRANS then
      && id in s.node.acks && !Reported(s.expired, id, e)
      && s.node.acks[id] == if accepted then e.(timestamp := now, attempts := e.attempts + 1) else e
    else id !in s.node.acks && Reported(s.expired, id, e)
  }

  lemma {:induction false} SweepFate(n: Node, ids: seq<U32>, id: U32)
    requires id in n.acks && id in ids
    requires forall i, j | 0 <= i < j < |ids| :: ids[i] != ids[j]
    ensures Fate(n, Sweep(n, ids), id, n.acks[id], n.io.env.accepts(Offer(n, ids, id)))
    decreases |ids|
  {
    var k := |ids| - 1;
    var s := Sweep(n, ids[..k]);
    if ids[k] == id {
      SweepFrame(n, ids[..k], id);
    } else {
      assert id in ids[..k];
      SweepFate(n, ids[..k], id);
      SweepEnv(n, ids[..k]);
    }
  }

  lemma {:induction false} SweepEnv(n: Node, ids: seq<U32>)
    ensures Sweep(n, ids).node.io.env == n.io.env && Sweep(n, ids).node.acks.Keys <= n.acks.Keys
    ensures n.io.offered <= Sweep(n, ids).node.io.offered
    decreases |ids|
  {
    if ids != [] {
      SweepEnv(n, ids[..|ids| - 1]);
    }
  }

  /** The offer counted for an overdue entry with retries left is one the sweep really makes. */
  lemma {:induction false} OfferIsMade(n: Node, ids: seq<U32>, id: U32)
    requires id in n.acks && id in ids
    requires forall i, j | 0 <= i < j < |ids| :: ids[i] != ids[j]
    requires Overdue(n.acks[id], n.io.env.clock) && n.acks[id].attempts < MAX_RETRANS
    ensures n.io.offered <= Offer(n, ids, id) < Sweep(n, ids).node.io.offered
    decreases |ids|
  {
    var k := |ids| - 1;
    SweepEnv(n, ids[..k]);
    if ids[k] == id {
      SweepFrame(n, ids[..k], id);
    } else {
      assert id in ids[..k];
      OfferIsMade(n, ids[..k], id);
    }
  }

  /** Does the radio queue accept the retransmission of this entry in a pass over the whole buffer? */
  ghost predicate Accepted(n: Node, id: U32) {
    n.io.env.accepts(Offer(n, Ascending(n.acks.Keys), id))
  }

  /** A cleanup pass partitions the ack buffer into kept and expired, losing nothing. */
  lemma CleanupPartitions(n: Node, garbled: U32 -> U32, id: U32)
    requires id in n.acks
    ensures var s := Sweep(n, Ascending(n.acks.Keys));
            && Fate(n, s, id, n.acks[id], Accepted(n, id))
            && CleanupAcks(n, garbled).acks == s.node.acks
            && s.node.acks.Keys <= n.acks.Keys
  {
    AscendingIsSorted(n.acks.Keys);
    var ids := Ascending(n.acks.Keys);
    SweepFate(n, ids, id);
    SweepEnv(n, ids);
    CleanupAcksAre(n, garbled);
    hide Sweep, CleanupAcks, Fate;
  }

  /** Whatever else the queue accepts or refuses during the pass: an overdue entry with retries left is
      offered, gains an attempt and a new timestamp if that offer is accepted, and is unchanged if not. */
  lemma RetryIffAccepted(n: Node, garbled: U32 -> U32, id: U32) returns (k: nat)
    requires id in n.acks && Overdue(n.acks[id], n.io.env.clock) && n.acks[id].attempts < MAX_RETRANS
    ensures n.io.offered <= k < Sweep(n, Ascending(n.acks.Keys)).node.io.offered
    ensures var acks, e := CleanupAcks(n, garbled).acks, n.acks[id];
            id in acks
            && acks[id] == if n.io.env.accepts(k) then e.(timestamp := n.io.env.clock, attempts := e.attempts + 1) else e
  {
    var ids := Ascending(n.acks.Keys);
    AscendingIsSorted(n.acks.Keys);
    k := Offer(n, ids, id);
    OfferIsMade(n, ids, id);
    CleanupPartitions(n, garbled, id);
    hide Sweep, CleanupAcks, Offer, Overdue;
  }

  // ---------- how an entry leaves the buffer ----------

  /** The first check of a received frame: any frame that repeats the packet ID. */
  predicate Implicit(s: Net, l: Label, q: U32, p: U32) {
    l.Deliver? && l.i < |s.flying| && s.flying[l.i].at == q && s.flying[l.i].frame.id == p
  }

  /** An ACK frame for the packet, handled by the node. */
  ghost predicate Explicit(s: Net, l: Label, q: U32, p: U32)
    requires Enabled(s, l)
  {
    && l.Deliver? && s.flying[l.i].at == q && s.flying[l.i].frame.body == Ack(p) && s.flying[l.i].frame.id != p
    && Accepts(Before(s, l), s.flying[l.i].frame)
  }

  ghost predicate Expired(s: Net, l: Label, q: U32, p: U32)
    requires q in s.nodes && p in s.nodes[q].acks
  {
    && l.AckTimer? && l.q == q
    && Overdue(s.nodes[q].acks[p], l.env.clock) && s.nodes[q].acks[p].attempts >= MAX_RETRANS
  }

  lemma HandleKeeps(n: Node, f: Frame, p: U32)
    requires p in n.acks && f.id != p && f.body != Ack(p)
    ensures p in HandlePacket(n, f).acks
  {
    var m := n.(seen := n.seen + {f.id});
    if Accepts(n, f) && !f.body.Ack? {
      DispatchEmits(m, f, 0);
      LearnOnlyLearns(m, f);
      hide Dispatch, Learn, Undisturbed, Ledger, Clean, Fine, NewAir, NewNotes;
    }
  }

  lemma ApiKeeps(n: Node, call: ApiCall, p: U32)
    requires p in n.acks
    ensures p in Api(n, call).acks
  {
    var watch := if call.CallData? || call.CallUserMsg? then OtherThan(call.id) else 0;
    ApiEmits(Ctx(n.me, n.routes, Call, watch, p), n, call);
    hide Api, Undisturbed, Ledger, Fine, NewAir, NewNotes;
  }

  lemma HandleDrops(n: Node, f: Frame, p: U32)
    requires p in n.acks
    ensures f.id == p ==> p !in HandlePacket(n, f).acks
    ensures f.id != p && f.body == Ack(p) ==> (p in HandlePacket(n, f).acks <==> !Accepts(n, f))
  {
  }

  /** An entry leaves the buffer in exactly three ways: a frame repeating its ID, an ACK frame
      for it, or a timer pass that finds it overdue with its retries spent. */
  lemma LeavesOnlyBy(t: Topology, s: Net, l: Label, q: U32, p: U32)
    requires Placed(t, s) && Enabled(s, l) && q in s.nodes && p in s.nodes[q].acks
    ensures q in Step(t, s, l).nodes
    ensures p !in Step(t, s, l).nodes[q].acks <==> Implicit(s, l, q, p) || Explicit(s, l, q, p) || Expired(s, l, q, p)
  {
    if Acts(l) {
      StepShape(t, s, l);
    }
    if Acts(l) && Actor(s, l) == q {
      hide Step, HandlePacket, Api, CleanupAcks, Behaves, Accepts;
      var n := Before(s, l);
      match l
      case Deliver(i, _) =>
        HandleDrops(n, s.flying[i].frame, p);
        if s.flying[i].frame.id != p && s.flying[i].frame.body != Ack(p) {
          HandleKeeps(n, s.flying[i].frame, p);
        }
      case Invoke(_, call, _) => ApiKeeps(n, call, p);
      case AckTimer(_, _, garbled) => CleanupPartitions(n, garbled, p);
    }
  }

  // ---------- retries come to an end ----------

  /** Tick subtraction gives the true elapsed time whenever that is below 2^32. */
  lemma ElapsedIsTrue(start: nat, elapsed: nat)
    requires elapsed < 0x1_0000_0000
    ensures Elapsed((start + elapsed) % 0x1_0000_0000, start % 0x1_0000_0000) == elapsed
  {
  }

  /** A run of cleanup passes at one node, each in its own environment. */
  ghost function Passes(n: Node, envs: seq<Env>, garbled: U32 -> U32): Node
    decreases |envs|
  {
    if envs == [] then n
    else CleanupAcks(Awake(Passes(n, envs[..|envs| - 1], garbled), envs[|envs| - 1]), garbled)
  }

  lemma CleanupAcksAre(n: Node, garbled: U32 -> U32)
    ensures CleanupAcks(n, garbled).acks == Sweep(n, Ascending(n.acks.Keys)).node.acks
  {
    var s := Sweep(n, Ascending(n.acks.Keys));
    ReportAllOwing(s.node, s.expired, garbled, 0);
    hide Sweep, ReportAll, Outcomes, CountAsk, CountSpent;
  }

  lemma AbsentStays(n: Node, garbled: U32 -> U32, id: U32)
    requires id !in n.acks
    ensures id !in CleanupAcks(n, garbled).acks
  {
    CleanupAcksAre(n, garbled);
    SweepEnv(n, Ascending(n.acks.Keys));
    hide Sweep, CleanupAcks;
  }

  /** What one pass does to an entry that is there: nothing, one more attempt, or out. */
  lemma OnePass(n: Node, garbled: U32 -> U32, id: U32)
    requires id in n.acks
    ensures var acks, e := CleanupAcks(n, garbled).acks, n.acks[id];
            if Overdue(e, n.io.env.clock) && e.attempts >= MAX_RETRANS then id !in acks
            else id in acks
                 && acks[id].attempts == e.attempts + if Overdue(e, n.io.env.clock) && Accepted(n, id) then 1 else 0
  {
    CleanupPartitions(n, garbled, id);
    hide Sweep, CleanupAcks, Overdue, Accepted;
  }

  /** The node as the last of these passes finds it. */
  ghost function AtLast(n: Node, envs: seq<Env>, garbled: U32 -> U32): Node
    requires envs != []
  {
    Awake(Passes(n, envs[..|envs| - 1], garbled), envs[|envs| - 1])
  }

  /** How many of the passes found the entry overdue and had its retransmission accepted. */
  ghost function Retried(n: Node, envs: seq<Env>, garbled: U32 -> U32, id: U32): nat
    decreases |envs|
  {
    if envs == [] then 0
    else
      var m := AtLast(n, envs, garbled);
      Retried(n, envs[..|envs| - 1], garbled, id)
      + if id in m.acks && Overdue(m.acks[id], m.io.env.clock) && m.acks[id].attempts < MAX_RETRANS && Accepted(m, id) then 1 else 0
  }

  /** Some pass found the entry overdue with its retries spent. */
  ghost predicate FoundSpent(n: Node, envs: seq<Env>, garbled: U32 -> U32, id: U32)
    decreases |envs|
  {
    envs != [] && (
      || FoundSpent(n, envs[..|envs| - 1], garbled, id)
      || (var m := AtLast(n, envs, garbled);
          id in m.acks && Overdue(m.acks[id], m.io.env.clock) && m.acks[id].attempts >= MAX_RETRANS))
  }

  /** Over any cleanup passes, the clock and the queue as they like: an entry is gone if and only if some
      pass found it overdue with its retries spent; until then it has gained exactly one attempt for each
      pass that found it overdue and had its retransmission accepted. */
  lemma {:induction false} RetriesCounted(n: Node, envs: seq<Env>, garbled: U32 -> U32, id: U32)
    requires id in n.acks && n.acks[id].attempts <= MAX_RETRANS
    ensures var r := Passes(n, envs, garbled);
            && (id in r.acks <==> !FoundSpent(n, envs, garbled, id))
            && (id in r.acks ==> r.acks[id].attempts == n.acks[id].attempts + Retried(n, envs, garbled, id) <= MAX_RETRANS)
    decreases |envs|
  {
    hide CleanupAcks, Overdue, Accepted;
    if envs != [] {
      RetriesCounted(n, envs[..|envs| - 1], garbled, id);
      var m := AtLast(n, envs, garbled);
      if id in m.acks {
        OnePass(m, garbled, id);
      } else {
        AbsentStays(m, garbled, id);
      }
    }
  }

  /** Every pass that still finds the entry finds it overdue, and the queue takes its retransmission. */
  ghost predicate KeepsRetrying(n: Node, envs: seq<Env>, garbled: U32 -> U32, id: U32)
    decreases |envs|
  {
    envs != [] ==>
      && KeepsRetrying(n, envs[..|envs| - 1], garbled, id)
      && var m := AtLast(n, envs, garbled);
         id in m.acks ==>
           Overdue(m.acks[id], m.io.env.clock) && (m.acks[id].attempts < MAX_RETRANS ==> Accepted(m, id))
  }

  /** So an entry overdue at one more such pass than it has retries left is gone, and stays gone. */
  lemma {:induction false} RetriesEnd(n: Node, envs: seq<Env>, garbled: U32 -> U32, id: U32)
    requires id in n.acks && n.acks[id].attempts <= MAX_RETRANS
    requires KeepsRetrying(n, envs, garbled, id)
    ensures var r := Passes(n, envs, garbled);
            if |envs| + n.acks[id].attempts <= MAX_RETRANS
            then id in r.acks && r.acks[id].attempts == n.acks[id].attempts + |envs|
            else id !in r.acks
    decreases |envs|
  {
    hide CleanupAcks, Overdue, Accepted;
    if envs != [] {
      RetriesEnd(n, envs[..|envs| - 1], garbled, id);
      var m := AtLast(n, envs, garbled);
      if id in m.acks {
        OnePass(m, garbled, id);
      } else {
        AbsentStays(m, garbled, id);
      }
    }
  }
}
