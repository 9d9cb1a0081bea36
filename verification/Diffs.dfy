/** Replication of the set of known users: differences at the home node, cut
    into chunks, applied to a remote node's global user table. */
module Diffs {
  import opened Packets
  import opened Ordered
  import opened Sessions
  import opened Nodes
  import opened Effects
  import opened InboxHistory

  // ---------- what chunks do to a remote table ----------

  /** Users the table places at node h. */
  function Claimed(gut: map<U32, U32>, h: U32): set<U32> {
    set u | u in gut && gut[u] == h
  }

  /** The two payload loops of one received chunk. */
  function ApplyChunk(gut: map<U32, U32>, h: U32, b: Body): map<U32, U32>
    requires b.Info?
  {
    Unclaim(Claim(gut, AddedIds(b), h), RemovedIds(b))
  }

  predicate AllInfo(bs: seq<Body>) {
    forall i | 0 <= i < |bs| :: bs[i].Info?
  }

  function ApplyAll(gut: map<U32, U32>, h: U32, bs: seq<Body>): map<U32, U32>
    requires AllInfo(bs)
    decreases |bs|
  {
    if bs == [] then gut else ApplyAll(ApplyChunk(gut, h, bs[0]), h, bs[1..])
  }

  /** `after` is `gut` with the users of a placed at h and the users of r forgotten. */
  ghost predicate Effect(gut: map<U32, U32>, h: U32, a: seq<U32>, r: seq<U32>, after: map<U32, U32>) {
    forall u: U32 ::
      if u in r then u !in after
      else if u in a then u in after && after[u] == h
      else (u in after <==> u in gut) && (u in after ==> after[u] == gut[u])
  }

  ghost predicate Apart(a: seq<U32>, r: seq<U32>) {
    forall u: U32 :: !(u in a && u in r)
  }

  lemma {:induction false} ClaimEffect(gut: map<U32, U32>, h: U32, a: seq<U32>)
    ensures Effect(gut, h, a, [], Claim(gut, a, h))
    decreases |a|
  {
    if a != [] {
      ClaimEffect(gut, h, a[..|a| - 1]);
    }
  }

  lemma {:induction false} UnclaimEffect(gut: map<U32, U32>, h: U32, r: seq<U32>)
    ensures Effect(gut, h, [], r, Unclaim(gut, r))
    decreases |r|
  {
    if r != [] {
      UnclaimEffect(gut, h, r[..|r| - 1]);
    }
  }

  lemma EffectThen(g: map<U32, U32>, h: U32, a1: seq<U32>, r1: seq<U32>, g1: map<U32, U32>,
                   a2: seq<U32>, r2: seq<U32>, g2: map<U32, U32>)
    requires Effect(g, h, a1, r1, g1) && Effect(g1, h, a2, r2, g2) && Apart(a1 + a2, r1 + r2)
    ensures Effect(g, h, a1 + a2, r1 + r2, g2)
  {
  }

  lemma ChunkEffect(gut: map<U32, U32>, h: U32, b: Body)
    requires b.Info? && Apart(AddedIds(b), RemovedIds(b))
    ensures Effect(gut, h, AddedIds(b), RemovedIds(b), ApplyChunk(gut, h, b))
  {
    var a, r := AddedIds(b), RemovedIds(b);
    ClaimEffect(gut, h, a);
    UnclaimEffect(Claim(gut, a, h), h, r);
    assert a + [] == a && [] + r == r;
    EffectThen(gut, h, a, [], Claim(gut, a, h), [], r, Unclaim(Claim(gut, a, h), r));
  }

  lemma FirstChunkIds(a: seq<U32>, r: seq<U32>)
    ensures var b := FirstChunk(a, r);
            && b.numAdded <= |a| && b.numRemoved <= |r|
            && AddedIds(b) == a[..b.numAdded] && RemovedIds(b) == r[..b.numRemoved]
            && |b.ids| == Min(IDS_PER_PKT, |a| + |r|)
  {
  }

  /** The chunks of a difference, applied in order, do exactly what the difference says. */
  lemma {:induction false} ChunksEffect(gut: map<U32, U32>, h: U32, a: seq<U32>, r: seq<U32>)
    requires Apart(a, r)
    ensures AllInfo(Chunks(a, r)) && Effect(gut, h, a, r, ApplyAll(gut, h, Chunks(a, r)))
    decreases |a| + |r|
  {
    ChunksAreInfo(a, r);
    if a != [] || r != [] {
      var b := FirstChunk(a, r);
      FirstChunkIds(a, r);
      var a1, a2, r1, r2 := a[..b.numAdded], a[b.numAdded..], r[..b.numRemoved], r[b.numRemoved..];
      assert a == a1 + a2 && r == r1 + r2;
      Split(a1, a2, r1, r2);
      ChunkEffect(gut, h, b);
      var g1 := ApplyChunk(gut, h, b);
      ChunksEffect(g1, h, a2, r2);
      EffectThen(gut, h, a1, r1, g1, a2, r2, ApplyAll(g1, h, Chunks(a2, r2)));
      hide Effect, FirstChunk, ApplyChunk;
    }
  }

  lemma Split(a1: seq<U32>, a2: seq<U32>, r1: seq<U32>, r2: seq<U32>)
    requires Apart(a1 + a2, r1 + r2)
    ensures Apart(a1, r1) && Apart(a2, r2)
  {
    forall u: U32 ensures !(u in a1 && u in r1) && !(u in a2 && u in r2) {
      assert u in a1 ==> u in a1 + a2;
      assert u in r1 ==> u in r1 + r2;
      assert u in a2 ==> u in a1 + a2;
      assert u in r2 ==> u in r1 + r2;
    }
  }

  // ---------- what the radio makes of the chunks ----------

  /** The chunks that pass the size check of the sealing step. */
  function OnRadio(bs: seq<Body>): seq<Body> {
    if bs == [] then [] else (if Oversize(bs[0]) then [] else [bs[0]]) + OnRadio(bs[1..])
  }

  const FITTING := 55

  lemma FitsIff(b: Body)
    requires b.Info?
    ensures Oversize(b) <==> |b.ids| > FITTING
  {
  }

  /** How many IDs the last chunk of so many holds (0 if all chunks are full). */
  function Rest(total: nat): (k: nat)
    ensures k <= total
  {
    total % IDS_PER_PKT
  }

  lemma RestOfMore(total: nat)
    requires total >= IDS_PER_PKT
    ensures Rest(total) == Rest(total - IDS_PER_PKT)
  {
  }

  function Suffix(s: seq<U32>, k: nat): (t: seq<U32>)
    requires k <= |s|
    ensures |t| == k
  {
    s[|s| - k..]
  }

  lemma SuffixOfSuffix(s: seq<U32>, j: nat, k: nat)
    requires k <= j <= |s|
    ensures Suffix(Suffix(s, j), k) == Suffix(s, k)
  {
  }

  /** The last k IDs of a difference, additions first. */
  function LastRemoved(r: seq<U32>, k: nat): seq<U32> {
    Suffix(r, Min(k, |r|))
  }

  function LastAdded(a: seq<U32>, r: seq<U32>, k: nat): seq<U32>
    requires k <= |a| + |r|
  {
    Suffix(a, k - Min(k, |r|))
  }

  lemma LastOfTails(a: seq<U32>, r: seq<U32>, i: nat, j: nat, k: nat)
    requires i <= |a| && j <= |r| && k <= i + j && (j < |r| ==> i == 0)
    ensures LastAdded(Suffix(a, i), Suffix(r, j), k) == LastAdded(a, r, k)
    ensures LastRemoved(Suffix(r, j), k) == LastRemoved(r, k)
  {
    hide Suffix;
    SuffixOfSuffix(r, j, Min(k, j));
    if j < |r| {
      SuffixOfSuffix(a, 0, 0);
    } else {
      SuffixOfSuffix(a, i, k - Min(k, |r|));
    }
  }

  /** What gets out of a difference: at most its last chunk, and only if that holds 1 to 55 IDs. */
  ghost predicate LastChunkOnly(a: seq<U32>, r: seq<U32>) {
    var k := Rest(|a| + |r|);
    OnRadio(Chunks(a, r)) == if 1 <= k <= FITTING then [FirstChunk(LastAdded(a, r, k), LastRemoved(r, k))] else []
  }

  lemma LongStep(a: seq<U32>, r: seq<U32>, i: nat, j: nat)
    requires i <= |a| && j <= |r| && i + j + IDS_PER_PKT == |a| + |r| && (j < |r| ==> i == 0)
    requires OnRadio(Chunks(a, r)) == OnRadio(Chunks(Suffix(a, i), Suffix(r, j)))
    requires LastChunkOnly(Suffix(a, i), Suffix(r, j))
    ensures LastChunkOnly(a, r)
  {
    hide Rest, FirstChunk, Chunks, OnRadio, Suffix, LastAdded, LastRemoved;
    RestOfMore(|a| + |r|);
    var k := Rest(i + j);
    assert k == Rest(|a| + |r|);
    LastOfTails(a, r, i, j, k);
  }

  /** Every chunk but the last is cut too large to be sent. */
  lemma {:induction false} OnlyLastChunkFits(a: seq<U32>, r: seq<U32>)
    ensures LastChunkOnly(a, r)
    decreases |a| + |r|
  {
    hide LastChunkOnly, OnRadio, Chunks, Suffix;
    if |a| + |r| >= IDS_PER_PKT {
      FullChunkDropped(a, r);
      var i, j := |a| - FirstChunk(a, r).numAdded, |r| - FirstChunk(a, r).numRemoved;
      OnlyLastChunkFits(Suffix(a, i), Suffix(r, j));
      LongStep(a, r, i, j);
    } else {
      ShortLast(a, r);
    }
  }

  lemma ShortLast(a: seq<U32>, r: seq<U32>)
    requires |a| + |r| < IDS_PER_PKT
    ensures LastChunkOnly(a, r)
  {
    if a != [] || r != [] {
      ShortDiff(a, r);
    }
  }

  lemma FullChunkDropped(a: seq<U32>, r: seq<U32>)
    requires |a| + |r| >= IDS_PER_PKT
    ensures var b := FirstChunk(a, r);
            && b.numAdded <= |a| && b.numRemoved <= |r| && b.numAdded + b.numRemoved == IDS_PER_PKT
            && (b.numRemoved > 0 ==> b.numAdded == |a|)
            && OnRadio(Chunks(a, r)) == OnRadio(Chunks(Suffix(a, |a| - b.numAdded), Suffix(r, |r| - b.numRemoved)))
  {
    var b := FirstChunk(a, r);
    FirstChunkIds(a, r);
    FitsIff(b);
    var bs := Chunks(Suffix(a, |a| - b.numAdded), Suffix(r, |r| - b.numRemoved));
    assert Chunks(a, r) == [b] + bs;
    OnRadioCons(b, bs);
    hide Chunks, OnRadio, Oversize;
  }

  lemma OnRadioCons(b: Body, bs: seq<Body>)
    ensures OnRadio([b] + bs) == (if Oversize(b) then [] else [b]) + OnRadio(bs)
  {
  }

  /** A difference of fewer than 57 IDs is one chunk. */
  lemma ShortDiff(a: seq<U32>, r: seq<U32>)
    requires |a| + |r| < IDS_PER_PKT && (a != [] || r != [])
    ensures Chunks(a, r) == [FirstChunk(a, r)]
    ensures Rest(|a| + |r|) == |a| + |r|
    ensures LastAdded(a, r, |a| + |r|) == a && LastRemoved(r, |a| + |r|) == r
    ensures OnRadio(Chunks(a, r)) == if |a| + |r| <= FITTING then [FirstChunk(a, r)] else []
  {
    FirstChunkIds(a, r);
    FitsIff(FirstChunk(a, r));
    OnRadioCons(FirstChunk(a, r), []);
    hide FirstChunk, Oversize;
  }

  lemma SuffixApart(a: seq<U32>, r: seq<U32>, i: nat, j: nat)
    requires Apart(a, r) && i <= |a| && j <= |r|
    ensures Apart(Suffix(a, i), Suffix(r, j))
  {
    var i', j' := |a| - i, |r| - j;
    assert a == a[..i'] + Suffix(a, i) && r == r[..j'] + Suffix(r, j);
    Split(a[..i'], Suffix(a, i), r[..j'], Suffix(r, j));
  }

  /** The IDs of a difference that reach the air. */
  function SentAdded(a: seq<U32>, r: seq<U32>): seq<U32> {
    var k := Rest(|a| + |r|);
    if 1 <= k <= FITTING then LastAdded(a, r, k) else []
  }

  function SentRemoved(a: seq<U32>, r: seq<U32>): seq<U32> {
    var k := Rest(|a| + |r|);
    if 1 <= k <= FITTING then LastRemoved(r, k) else []
  }

  /** What one published difference does to a remote table over the radio. */
  lemma RadioEffect(gut: map<U32, U32>, h: U32, a: seq<U32>, r: seq<U32>)
    requires Apart(a, r)
    ensures AllInfo(OnRadio(Chunks(a, r)))
    ensures Effect(gut, h, SentAdded(a, r), SentRemoved(a, r), ApplyAll(gut, h, OnRadio(Chunks(a, r))))
  {
    var k := Rest(|a| + |r|);
    OnlyLastChunkFits(a, r);
    if 1 <= k <= FITTING {
      SuffixApart(a, r, k - Min(k, |r|), Min(k, |r|));
      OneChunkEffect(gut, h, LastAdded(a, r, k), LastRemoved(r, k));
    }
    hide Chunks, FirstChunk, Rest, ApplyChunk, Suffix;
  }

  lemma OneChunkEffect(gut: map<U32, U32>, h: U32, a: seq<U32>, r: seq<U32>)
    requires Apart(a, r) && |a| + |r| <= FITTING
    ensures Effect(gut, h, a, r, ApplyAll(gut, h, [FirstChunk(a, r)]))
  {
    FirstChunkIds(a, r);
    assert a[..|a|] == a && r[..|r|] == r;
    ChunkEffect(gut, h, FirstChunk(a, r));
    hide Effect, FirstChunk, ApplyChunk;
  }

  lemma EffectClaims(gut: map<U32, U32>, h: U32, a: seq<U32>, r: seq<U32>, after: map<U32, U32>)
    requires Effect(gut, h, a, r, after)
    ensures forall u: U32 :: u in Claimed(after, h) <==> u !in r && (u in a || u in Claimed(gut, h))
  {
  }

  lemma AscendingApart(added: set<U32>, removed: set<U32>)
    requires added !! removed
    ensures Apart(Ascending(added), Ascending(removed))
    ensures |Ascending(added)| == |added| && |Ascending(removed)| == |removed|
  {
    AscendingIsSorted(added);
    AscendingIsSorted(removed);
    hide Ascending;
  }

  /** Payloads alone: a difference of any size, applied chunk by chunk, is replicated exactly. */
  lemma ChunksReplicate(gut: map<U32, U32>, h: U32, added: set<U32>, removed: set<U32>)
    requires added !! removed
    ensures AllInfo(Chunks(Ascending(added), Ascending(removed)))
    ensures Claimed(ApplyAll(gut, h, Chunks(Ascending(added), Ascending(removed))), h)
         == Claimed(gut, h) + added - removed
  {
    var a, r := Ascending(added), Ascending(removed);
    AscendingApart(added, removed);
    AscendingIsSorted(added);
    AscendingIsSorted(removed);
    ChunksEffect(gut, h, a, r);
    EffectClaims(gut, h, a, r, ApplyAll(gut, h, Chunks(a, r)));
    hide Effect, Chunks, ApplyAll, Ascending, Claimed;
  }

  /** The first ID of a proper suffix's complement is not in the suffix. */
  lemma HeadNotInSuffix(s: set<U32>, k: nat)
    requires k < |Ascending(s)|
    ensures Ascending(s)[0] !in Ascending(s)[|Ascending(s)| - k..]
  {
    AscendingIsSorted(s);
    hide Ascending;
  }

  /** Over the radio, a difference made of real changes (users the remote node does not place here are
      added, users it does place here are removed) is replicated if and only if it names at most 55 users. */
  lemma RadioReplicatesIff(gut: map<U32, U32>, h: U32, added: set<U32>, removed: set<U32>)
    requires added !! Claimed(gut, h) && removed <= Claimed(gut, h)
    ensures var bs := OnRadio(Chunks(Ascending(added), Ascending(removed)));
            AllInfo(bs) && (Claimed(ApplyAll(gut, h, bs), h) == Claimed(gut, h) + added - removed
                            <==> |added| + |removed| <= FITTING)
  {
    var a, r := Ascending(added), Ascending(removed);
    AscendingApart(added, removed);
    RadioEffect(gut, h, a, r);
    if |a| + |r| <= FITTING {
      if a != [] || r != [] {
        ShortDiff(a, r);
      }
      ChunksReplicate(gut, h, added, removed);
    } else {
      LongDiffLost(gut, h, added, removed);
    }
  }

  /** Over the radio, any difference: it is replicated if and only if every ID of it that does not get out
      changes nothing at the remote node. */
  lemma RadioReplicatesExactly(gut: map<U32, U32>, h: U32, added: set<U32>, removed: set<U32>)
    requires added !! removed
    ensures var a, r := Ascending(added), Ascending(removed);
            var bs := OnRadio(Chunks(a, r));
            && AllInfo(bs)
            && (Claimed(ApplyAll(gut, h, bs), h) == Claimed(gut, h) + added - removed
                <==> && (forall u | u in added :: u in SentAdded(a, r) || u in Claimed(gut, h))
                     && (forall u | u in removed :: u in SentRemoved(a, r) || u !in Claimed(gut, h)))
  {
    var a, r := Ascending(added), Ascending(removed);
    AscendingApart(added, removed);
    AscendingIsSorted(added);
    AscendingIsSorted(removed);
    RadioEffect(gut, h, a, r);
    SentAreSuffixes(a, r);
    var a', r' := SentAdded(a, r), SentRemoved(a, r);
    var after := ApplyAll(gut, h, OnRadio(Chunks(a, r)));
    EffectClaims(gut, h, a', r', after);
    hide Effect, Chunks, ApplyAll, Ascending, Claimed, OnRadio, SentAdded, SentRemoved;
    assert forall u: U32 :: (u in a' ==> u in added) && (u in r' ==> u in removed);
    SetsAgree(Claimed(after, h), Claimed(gut, h), added, removed, a', r');
  }

  lemma SetsAgree(after: set<U32>, before: set<U32>, added: set<U32>, removed: set<U32>, a: seq<U32>, r: seq<U32>)
    requires added !! removed
    requires forall u: U32 :: (u in a ==> u in added) && (u in r ==> u in removed)
    requires forall u: U32 :: u in after <==> u !in r && (u in a || u in before)
    ensures after == before + added - removed
            <==> (forall u | u in added :: u in a || u in before) && (forall u | u in removed :: u in r || u !in before)
  {
    if after == before + added - removed {
      forall u | u in added ensures u in a || u in before {
        assert u in after;
      }
      forall u | u in removed ensures u in r || u !in before {
        assert u !in after;
      }
    }
  }

  lemma SentAreSuffixes(a: seq<U32>, r: seq<U32>)
    ensures var a', r' := SentAdded(a, r), SentRemoved(a, r);
            && |a'| <= |a| && a' == a[|a| - |a'|..] && |r'| <= |r| && r' == r[|r| - |r'|..]
            && |a'| + |r'| <= FITTING
  {
  }

  lemma LongDiffLost(gut: map<U32, U32>, h: U32, added: set<U32>, removed: set<U32>)
    requires added !! Claimed(gut, h) && removed <= Claimed(gut, h) && |added| + |removed| > FITTING
    ensures var bs := OnRadio(Chunks(Ascending(added), Ascending(removed)));
            AllInfo(bs) && Claimed(ApplyAll(gut, h, bs), h) != Claimed(gut, h) + added - removed
  {
    var a, r := Ascending(added), Ascending(removed);
    AscendingApart(added, removed);
    AscendingIsSorted(added);
    AscendingIsSorted(removed);
    RadioEffect(gut, h, a, r);
    SentAreSuffixes(a, r);
    var a', r' := SentAdded(a, r), SentRemoved(a, r);
    var after := ApplyAll(gut, h, OnRadio(Chunks(a, r)));
    EffectClaims(gut, h, a', r', after);
    hide Effect, Chunks, ApplyAll, Ascending, Claimed, OnRadio, SentAdded, SentRemoved, LastAdded, LastRemoved;
    if |a'| < |a| {
      HeadNotInSuffix(added, |a'|);
      assert a[0] in a && a[0] !in a';
      assert a[0] !in Claimed(after, h) && a[0] in Claimed(gut, h) + added - removed;
    } else {
      assert |r'| < |r|;
      HeadNotInSuffix(removed, |r'|);
      assert r[0] in r && r[0] !in r';
      assert r[0] in Claimed(after, h) && r[0] !in Claimed(gut, h) + added - removed;
    }
  }

  /** Users 1 to k. */
  function FirstUsers(k: nat): (s: set<U32>)
    requires k < 100
    ensures |s| == k && forall u | u in s :: 1 <= u <= k
  {
    if k == 0 then {} else FirstUsers(k - 1) + {k}
  }

  /** 56 or 57 changes at once: nothing gets out. */
  lemma FullChunkLost(added: set<U32>, removed: set<U32>)
    requires FITTING < |added| + |removed| <= IDS_PER_PKT
    ensures OnRadio(Chunks(Ascending(added), Ascending(removed))) == []
  {
    AscendingIsSorted(added);
    AscendingIsSorted(removed);
    OnlyLastChunkFits(Ascending(added), Ascending(removed));
    hide Ascending, OnRadio, Chunks;
  }

  // ---------- over a whole history ----------

  /** The home node's session table and one remote node's global user table. In the histories below, a
      published difference reaches the remote node either as the radio lets it, or as its payloads alone
      would have it. */
  datatype World = World(home: Table, gut: map<U32, U32>)

  /** Session operations at home, a published difference that reaches the remote node, what the remote node
      applies from other nodes' differences, and the replies, moves and user errors it hears: a UREP or a
      MOVE_USER_REQ tells it where a user is, a UERR that a user is not where it was thought to be. */
  datatype Event =
    | Session(op: Op)
    | Published
    | Foreign(node: U32, body: Body)
    | Told(user: U32, place: U32)
    | Denied(user: U32, place: U32)

  function Displaced(gut: map<U32, U32>, u: U32, place: U32): map<U32, U32> {
    if u in gut && gut[u] == place then gut - {u} else gut
  }

  ghost function AllChanges(t: Table): seq<Body> {
    Chunks(Ascending(t.added), Ascending(t.removed))
  }

  ghost function Changes(t: Table): seq<Body> {
    OnRadio(AllChanges(t))
  }

  ghost function Received(t: Table, radio: bool): seq<Body> {
    if radio then Changes(t) else AllChanges(t)
  }

  ghost predicate Allowed(w: World, h: U32, e: Event, radio: bool) {
    match e
    case Session(op) => op != Publish && (op.Queue? ==> Knows(w.home, op.user))
    case Published => radio ==> |w.home.added| + |w.home.removed| <= FITTING
    case Foreign(node, b) =>
      // users are claimed by one node only: nobody else names a user the remote node places at h
      node != h && b.Info? && forall u | u in b.ids :: u !in Claimed(w.gut, h)
    case Told(u, place) =>
      // what is said of the home node is true when it arrives; what places one of its users elsewhere finds a change
      // of that user still to be published
      if place == h then Knows(w.home, u) else u in Claimed(w.gut, h) ==> u in w.home.added || u in w.home.removed
    case Denied(u, place) => place == h ==> !Knows(w.home, u)
  }

  ghost function Next(w: World, h: U32, e: Event, radio: bool): World {
    match e
    case Session(op) => w.(home := Apply(w.home, op))
    case Published =>
      if AllInfo(Received(w.home, radio)) then World(ClearDiff(w.home), ApplyAll(w.gut, h, Received(w.home, radio))) else w
    case Foreign(node, b) => if b.Info? then w.(gut := ApplyChunk(w.gut, node, b)) else w
    case Told(u, place) => w.(gut := w.gut[u := place])
    case Denied(u, place) => w.(gut := Displaced(w.gut, u, place))
  }

  ghost predicate IsStory(ws: seq<World>, es: seq<Event>, h: U32, radio: bool) {
    && |ws| == |es| + 1
    && ws[0] == World(EMPTY, map[])
    && forall i | 0 <= i < |es| :: Allowed(ws[i], h, es[i], radio) && ws[i + 1] == Next(ws[i], h, es[i], radio)
  }

  /** The differences say exactly how the known users differ from what the remote node holds. */
  ghost predicate Tracks(w: World, h: U32) {
    && w.home.added !! w.home.removed
    && forall u: U32 :: u in w.home.users <==> u !in w.home.removed && (u in w.home.added || u in Claimed(w.gut, h))
  }

  lemma SessionTracks(w: World, h: U32, op: Op)
    requires Tracks(w, h) && op != Publish && (op.Queue? ==> Knows(w.home, op.user))
    ensures Tracks(w.(home := Apply(w.home, op)), h)
  {
    hide Claimed, DropOldest;
  }

  /** What reaches the remote node has the effect of the whole difference. */
  lemma ReceivedReplicates(t: Table, gut: map<U32, U32>, h: U32, radio: bool)
    requires t.added !! t.removed && (radio ==> |t.added| + |t.removed| <= FITTING)
    ensures AllInfo(Received(t, radio))
    ensures Claimed(ApplyAll(gut, h, Received(t, radio)), h) == Claimed(gut, h) + t.added - t.removed
  {
    var a, r := Ascending(t.added), Ascending(t.removed);
    AscendingApart(t.added, t.removed);
    if radio && (a != [] || r != []) {
      ShortDiff(a, r);
    }
    ChunksReplicate(gut, h, t.added, t.removed);
    hide Ascending, Chunks, ApplyAll, Claimed;
  }

  lemma ClearedTracks(w: World, w': World, h: U32)
    requires Tracks(w, h) && w'.home == ClearDiff(w.home)
    requires Claimed(w'.gut, h) == Claimed(w.gut, h) + w.home.added - w.home.removed
    ensures Tracks(w', h) && Claimed(w'.gut, h) == w'.home.users.Keys
  {
    hide Claimed;
  }

  lemma PublishedTracks(w: World, h: U32, radio: bool)
    requires Tracks(w, h) && Allowed(w, h, Published, radio)
    ensures AllInfo(Received(w.home, radio)) && Tracks(Next(w, h, Published, radio), h)
    ensures Claimed(Next(w, h, Published, radio).gut, h) == Next(w, h, Published, radio).home.users.Keys
  {
    ReceivedReplicates(w.home, w.gut, h, radio);
    ClearedTracks(w, Next(w, h, Published, radio), h);
    hide ApplyAll, Claimed, Received, Tracks;
  }

  lemma ForeignTracks(w: World, h: U32, e: Event, radio: bool)
    requires e.Foreign? && Tracks(w, h) && Allowed(w, h, e, radio)
    ensures Tracks(Next(w, h, e, radio), h)
  {
    var b, g1 := e.body, Claim(w.gut, AddedIds(e.body), e.node);
    var g2 := Unclaim(g1, RemovedIds(b));
    ClaimEffect(w.gut, e.node, AddedIds(b));
    UnclaimEffect(g1, e.node, RemovedIds(b));
    forall u: U32 ensures u in Claimed(g2, h) <==> u in Claimed(w.gut, h) {
      assert u in AddedIds(b) ==> u in b.ids;
      assert u in RemovedIds(b) ==> u in b.ids;
    }
    hide Claim, Unclaim, Claimed, AddedIds, RemovedIds;
  }

  /** A publication of any size over the radio keeps the bookkeeping if and only if every ID that does not
      get out changes nothing at the remote node. */
  lemma PublishTracksIff(w: World, h: U32)
    requires Tracks(w, h)
    ensures AllInfo(Changes(w.home))
    ensures var a, r := Ascending(w.home.added), Ascending(w.home.removed);
            Tracks(Next(w, h, Published, true), h)
            <==> && (forall u | u in w.home.added :: u in SentAdded(a, r) || u in Claimed(w.gut, h))
                 && (forall u | u in w.home.removed :: u in SentRemoved(a, r) || u !in Claimed(w.gut, h))
  {
    RadioReplicatesExactly(w.gut, h, w.home.added, w.home.removed);
    var w' := Next(w, h, Published, true);
    hide ApplyAll, Claimed, Ascending, Chunks, OnRadio, SentAdded, SentRemoved;
    assert Tracks(w', h) <==> Claimed(w'.gut, h) == Claimed(w.gut, h) + w.home.added - w.home.removed by {
      TracksWhenCleared(w, w', h);
    }
  }

  lemma TracksWhenCleared(w: World, w': World, h: U32)
    requires Tracks(w, h) && w'.home == ClearDiff(w.home)
    ensures Tracks(w', h) <==> Claimed(w'.gut, h) == Claimed(w.gut, h) + w.home.added - w.home.removed
  {
    hide Claimed;
    if Tracks(w', h) {
      assert forall u: U32 :: u in Claimed(w'.gut, h) <==> u in w.home.users;
    }
  }

  /** Another node's announcement keeps it if and only if each user it names that was placed at h has a change
      of its own waiting to be published. */
  lemma ForeignTracksIff(w: World, h: U32, node: U32, b: Body)
    requires Tracks(w, h) && b.Info? && node != h
    ensures Tracks(Next(w, h, Foreign(node, b), true), h)
            <==> forall u | (u in AddedIds(b) || u in RemovedIds(b)) && u in Claimed(w.gut, h) :: u in w.home.added || u in w.home.removed
  {
    var g1 := Claim(w.gut, AddedIds(b), node);
    var g2 := Unclaim(g1, RemovedIds(b));
    ClaimEffect(w.gut, node, AddedIds(b));
    UnclaimEffect(g1, node, RemovedIds(b));
    assert forall u: U32 :: u in Claimed(g2, h) <==> u in Claimed(w.gut, h) && u !in AddedIds(b) && u !in RemovedIds(b);
    hide Claim, Unclaim, Claimed, AddedIds, RemovedIds;
    var w' := Next(w, h, Foreign(node, b), true);
    if Tracks(w', h) {
      forall u | (u in AddedIds(b) || u in RemovedIds(b)) && u in Claimed(w.gut, h)
        ensures u in w.home.added || u in w.home.removed
      {
        assert u in w.home.users <==> u in w'.home.users;
      }
    }
  }

  /** A reply or a move keeps it if and only if it tells the remote node nothing new about who is at h, or the
      user has a change of its own waiting to be published. */
  lemma ToldTracksIff(w: World, h: U32, u: U32, place: U32)
    requires Tracks(w, h)
    ensures Tracks(Next(w, h, Told(u, place), true), h)
            <==> (place == h <==> u in Claimed(w.gut, h)) || u in w.home.added || u in w.home.removed
  {
    OneUserTracksIff(w, Next(w, h, Told(u, place), true), h, u);
  }

  /** A user error keeps it if and only if it takes none of h's users away, or that user has a change waiting. */
  lemma DeniedTracksIff(w: World, h: U32, u: U32, place: U32)
    requires Tracks(w, h)
    ensures Tracks(Next(w, h, Denied(u, place), true), h)
            <==> place != h || u !in Claimed(w.gut, h) || u in w.home.added || u in w.home.removed
  {
    OneUserTracksIff(w, Next(w, h, Denied(u, place), true), h, u);
  }

  lemma OneUserTracksIff(w: World, w': World, h: U32, u: U32)
    requires Tracks(w, h) && w'.home == w.home
    requires forall x | x != u :: x in Claimed(w'.gut, h) <==> x in Claimed(w.gut, h)
    ensures Tracks(w', h)
            <==> (u in Claimed(w'.gut, h) <==> u in Claimed(w.gut, h)) || u in w.home.added || u in w.home.removed
  {
    hide Claimed;
    if Tracks(w', h) {
      assert u in w.home.users <==> u in w'.home.users;
    }
  }

  /** What the home node itself answers is always such news: a reply for a user it knows, an error for one it does not. */
  lemma OwnAnswersTrack(w: World, h: U32, u: U32)
    requires Tracks(w, h)
    ensures Knows(w.home, u) ==> Tracks(Next(w, h, Told(u, h), true), h)
    ensures !Knows(w.home, u) ==> Tracks(Next(w, h, Denied(u, h), true), h)
  {
    ToldTracksIff(w, h, u, h);
    DeniedTracksIff(w, h, u, h);
    hide Claimed, Next;
  }

  lemma {:induction false} StoryTracks(ws: seq<World>, es: seq<Event>, h: U32, radio: bool, i: nat)
    requires IsStory(ws, es, h, radio) && i < |ws|
    ensures Tracks(ws[i], h)
  {
    if i > 0 {
      StoryTracks(ws, es, h, radio, i - 1);
      hide Tracks, Received, ApplyAll;
      match es[i - 1]
      case Session(op) => SessionTracks(ws[i - 1], h, op);
      case Published => PublishedTracks(ws[i - 1], h, radio);
      case Foreign(_, _) => ForeignTracks(ws[i - 1], h, es[i - 1], radio);
      case Told(u, place) =>
        ToldTracksIff(ws[i - 1], h, u, place);
        OwnAnswersTrack(ws[i - 1], h, u);
      case Denied(u, place) =>
        DeniedTracksIff(ws[i - 1], h, u, place);
        OwnAnswersTrack(ws[i - 1], h, u);
    } else {
      assert Claimed(map[], h) == {};
    }
  }

  lemma InSync(ws: seq<World>, es: seq<Event>, h: U32, radio: bool, i: nat)
    requires IsStory(ws, es, h, radio) && i < |es| && es[i] == Published
    ensures Claimed(ws[i + 1].gut, h) == ws[i + 1].home.users.Keys
    ensures ws[i + 1].home.added == ws[i + 1].home.removed == {}
  {
    StoryTracks(ws, es, h, radio, i);
    PublishedTracks(ws[i], h, radio);
    hide Claimed, Received, ApplyAll, Tracks;
  }

  /** In every history whose published differences are short enough to be sent, right after each
      publication the remote node places exactly the home node's known users there. */
  lemma InSyncAfterPublish(ws: seq<World>, es: seq<Event>, h: U32, i: nat)
    requires IsStory(ws, es, h, true) && i < |es| && es[i] == Published
    ensures Claimed(ws[i + 1].gut, h) == ws[i + 1].home.users.Keys
    ensures ws[i + 1].home.added == ws[i + 1].home.removed == {}
  {
    InSync(ws, es, h, true, i);
  }

  /** If the payloads arrived whatever their size, so it would be after every publication of any size. */
  lemma PayloadsInSync(ws: seq<World>, es: seq<Event>, h: U32, i: nat)
    requires IsStory(ws, es, h, false) && i < |es| && es[i] == Published
    ensures Claimed(ws[i + 1].gut, h) == ws[i + 1].home.users.Keys
    ensures ws[i + 1].home.added == ws[i + 1].home.removed == {}
  {
    InSync(ws, es, h, false, i);
  }

  /** Queueing for an unknown user is the one operation that breaks the bookkeeping. */
  lemma UnknownQueueBreaks(w: World, h: U32, u: U32, m: OfflineMsg)
    requires Tracks(w, h)
    ensures Tracks(w.(home := QueueOffline(w.home, u, m)), h) <==> Knows(w.home, u)
  {
    if Knows(w.home, u) {
      SessionTracks(w, h, Queue(u, m));
    } else {
      var t := QueueOffline(w.home, u, m);
      assert u in t.users && t.added == w.home.added && t.removed == w.home.removed;
    }
  }

  // ---------- the router's own broadcast ----------

  lemma {:induction false} TransmitAllAir(n: Node, hdr: Frame, bs: seq<Body>)
    requires forall k: nat :: n.io.env.accepts(k)
    ensures var n' := TransmitAll(n, hdr, bs);
            n'.io.air == n.io.air + seq(|OnRadio(bs)|, i requires 0 <= i < |OnRadio(bs)| => OnAir(hdr.(body := OnRadio(bs)[i])))
    decreases |bs|
  {
    if bs != [] {
      TransmitAllAir(Transmit(n, hdr.(body := bs[0])), hdr, bs[1..]);
      hide Oversize, OnAir;
    }
  }

  /** When the radio queue has room, what a broadcast puts on the air is exactly the chunks that
      `Changes` keeps, under one packet ID; the difference is forgotten either way. */
  lemma BroadcastSendsChanges(n: Node)
    requires n.users.added != {} || n.users.removed != {}
    requires forall k: nat :: n.io.env.accepts(k)
    ensures var n', bs := SendBroadcastInfo(n), Changes(n.users);
            && n'.users == ClearDiff(n.users)
            && n'.io.air == n.io.air + seq(|bs|, i requires 0 <= i < |bs| => InfoHeader(n).(body := bs[i]))
  {
    var bs := Chunks(Ascending(n.users.added), Ascending(n.users.removed));
    var m := Drew(n).(users := ClearDiff(n.users));
    TransmitAllAir(m, InfoHeader(n), bs);
    TransmitAllUsers(m, InfoHeader(n), bs);
    assert forall b: Body :: OnAir(InfoHeader(n).(body := b)) == InfoHeader(n).(body := b);
    hide TransmitAll, OnRadio, Chunks, Ascending, OnAir;
  }

  lemma {:induction false} TransmitAllUsers(n: Node, hdr: Frame, bs: seq<Body>)
    ensures TransmitAll(n, hdr, bs).users == n.users
    decreases |bs|
  {
    if bs != [] {
      TransmitAllUsers(Transmit(n, hdr.(body := bs[0])), hdr, bs[1..]);
    }
  }

  /** A remote router that hears such a frame applies it to its table as `ApplyChunk` does. */
  lemma HearingApplies(n: Node, f: Frame)
    requires f.body.Info?
    ensures HandleInfo(n, f).peers.gut == ApplyChunk(n.peers.gut, f.origin, f.body)
  {
    LearnInfoGut(n, f);
    hide Claim, Unclaim, AddedIds, RemovedIds, LearnInfo;
  }

  /** And what the other frames teach of users is `Told` and `Denied`. */
  lemma LearningApplies(n: Node, f: Frame)
    ensures f.body.Urep? ==> Learn(n, f).peers.gut == n.peers.gut[f.body.user := f.body.destNode]
    ensures f.body.MoveUser? ==> Learn(n, f).peers.gut == n.peers.gut[f.body.user := f.origin]
    ensures f.body.Uerr? ==> Learn(n, f).peers.gut == Displaced(n.peers.gut, f.body.user, f.body.node)
    ensures f.body.Info? ==> Learn(n, f).peers.gut == ApplyChunk(n.peers.gut, f.origin, f.body)
    ensures !f.body.Urep? && !f.body.MoveUser? && !f.body.Uerr? && !f.body.Info? ==> Learn(n, f).peers.gut == n.peers.gut
  {
    if f.body.Info? {
      LearnInfoGut(n, f);
      hide LearnInfo, Claim, Unclaim, AddedIds, RemovedIds;
    }
  }

  lemma {:induction false} NothingAired(n: Node, hdr: Frame, bs: seq<Body>)
    requires OnRadio(bs) == []
    ensures TransmitAll(n, hdr, bs).io.air == n.io.air
    decreases |bs|
  {
    if bs != [] {
      NothingAired(Transmit(n, hdr.(body := bs[0])), hdr, bs[1..]);
    }
  }

  /** Users 1 to k log in, one after the other. */
  function Logins(k: nat): seq<Op>
    requires k < 100
  {
    if k == 0 then [] else Logins(k - 1) + [Login(k, 7)]
  }

  lemma {:induction false} LoginsAdd(k: nat)
    requires k < 100
    ensures var t := InboxHistory.Play(Logins(k)); t.users.Keys == t.added == FirstUsers(k) && t.removed == {}
  {
    if k > 0 {
      LoginsAdd(k - 1);
      var ops := Logins(k);
      assert ops[..|ops| - 1] == Logins(k - 1);
      assert k !in FirstUsers(k - 1);
    }
  }

  /** A concrete failure: 56 users log in after boot, and the next broadcast puts nothing on the air, whatever
      room the radio queue has, while the difference is forgotten. */
  lemma FiftySixUsersLost(n: Node)
    requires n.users == InboxHistory.Play(Logins(56))
    ensures |n.users.users.Keys| == 56
    ensures SendBroadcastInfo(n).io.air == n.io.air
    ensures SendBroadcastInfo(n).users.added == {} && SendBroadcastInfo(n).users.users == n.users.users
  {
    hide FirstUsers, Logins, Play;
    LoginsAdd(56);
    FullChunkLost(n.users.added, n.users.removed);
    BroadcastLost(n);
  }

  lemma BroadcastLost(n: Node)
    requires n.users.added != {} && Changes(n.users) == []
    ensures SendBroadcastInfo(n).io.air == n.io.air
    ensures SendBroadcastInfo(n).users == ClearDiff(n.users)
  {
    var m := Drew(n).(users := ClearDiff(n.users));
    NothingAired(m, InfoHeader(n), AllChanges(n.users));
    TransmitAllUsers(m, InfoHeader(n), AllChanges(n.users));
    hide TransmitAll, OnRadio, Chunks, Ascending;
  }
}
