/** Choosing the gateway that messages for the uplink are sent to. */
module Gateways {
  import opened Packets
  import opened Nodes

  /** The scan finds a known gateway with a route of fewest hops, or (0, 255) when no known
      gateway has a route below 255 hops. */
  lemma {:induction false} ClosestIsNearest(r: Routes, gws: seq<U32>)
    ensures var best := Closest(r, gws);
            && (forall g | g in gws && g in r :: best.1 <= r[g].hops)
            && (if best.1 == 255 then best.0 == 0 else best.0 in gws && best.0 in r && r[best.0].hops == best.1)
    decreases |gws|
  {
    if gws != [] {
      var k := |gws| - 1;
      ClosestIsNearest(r, gws[..k]);
      assert gws == gws[..k] + [gws[k]];
    }
  }

  /** Of several equally near it finds the one listed first. */
  lemma {:induction false} ClosestIsFirst(r: Routes, gws: seq<U32>)
    ensures var best := Closest(r, gws);
            best.1 < 255 ==>
              exists i :: 0 <= i < |gws| && gws[i] == best.0 && forall j | 0 <= j < i && gws[j] in r :: r[gws[j]].hops > best.1
    decreases |gws|
  {
    if gws != [] {
      var k := |gws| - 1;
      ClosestIsFirst(r, gws[..k]);
      ClosestIsNearest(r, gws[..k]);
      var best, before := Closest(r, gws), Closest(r, gws[..k]);
      if best != before {
        assert gws[k] == best.0;
        forall j | 0 <= j < k && gws[j] in r ensures r[gws[j]].hops > best.1 {
          assert gws[j] in gws[..k];
        }
      } else if best.1 < 255 {
        var i :| 0 <= i < k && gws[..k][i] == best.0 && forall j | 0 <= j < i && gws[..k][j] in r :: r[gws[..k][j]].hops > best.1;
        assert gws[i] == best.0;
        assert forall j | 0 <= j < i :: gws[..k][j] == gws[j];
      }
    }
  }

  /** The remembered gateway is unset, or one of those known; those known are listed once. */
  predicate ChoiceKnown(p: Peers) {
    (p.closestGw == 0 || p.closestGw in p.gateways) && NoDup(p.gateways)
  }

  predicate NoDup(s: seq<U32>) {
    forall i, j | 0 <= i < j < |s| :: s[i] != s[j]
  }

  lemma {:induction false} WithoutIs(s: seq<U32>, x: U32)
    requires NoDup(s)
    ensures NoDup(Without(s, x)) && forall y: U32 :: y in Without(s, x) <==> y in s && y != x
  {
    if s != [] && s[0] != x {
      WithoutIs(s[1..], x);
      var r := Without(s[1..], x);
      assert Without(s, x) == [s[0]] + r;
      assert s[0] !in r;
      assert forall y: U32 :: y in s <==> y == s[0] || y in s[1..];
    }
  }

  lemma AddKeeps(n: Node, g: U32)
    requires ChoiceKnown(n.peers)
    ensures ChoiceKnown(AddGateway(n, g).peers)
    ensures forall x: U32 :: x in AddGateway(n, g).peers.gateways <==> x in n.peers.gateways || x == g
  {
    ClosestIsNearest(n.routes, n.peers.gateways + [g]);
    hide Closest;
  }

  lemma RemoveKeeps(n: Node, g: U32)
    requires ChoiceKnown(n.peers)
    ensures ChoiceKnown(RemoveGateway(n, g).peers)
    ensures forall x: U32 :: x in RemoveGateway(n, g).peers.gateways <==> x in n.peers.gateways && x != g
  {
    WithoutIs(n.peers.gateways, g);
    ClosestIsNearest(n.routes, Without(n.peers.gateways, g));
    hide Closest, Without;
  }

  /** So a message for the uplink is always addressed to a known gateway, even though the remembered
      one is chosen before the routes of the announcement that revealed it are learned. */
  lemma TargetIsKnown(n: Node)
    requires ChoiceKnown(n.peers) && n.peers.gateways != []
    ensures GatewayTarget(n) in n.peers.gateways
  {
  }

  /** g is a known gateway and no known gateway has a route of fewer hops. */
  predicate FewestHops(r: Routes, gws: seq<U32>, g: U32) {
    && g in gws && g in r && r[g].hops < 255
    && forall x | x in gws && x in r :: r[g].hops <= r[x].hops
  }
}
