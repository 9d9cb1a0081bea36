/** Who is online, told by the session operations alone: a user is online on a
    connection from its login there until it logs in again, is removed, or a
    disconnect of that connection takes it offline. */
module Presence {
  import opened Packets
  import opened Ordered
  import opened Sessions
  import opened InboxHistory

  /** u was logged in on connection h, and nothing since has ended that. */
  ghost predicate OnlineOn(ops: seq<Op>, u: U32, h: U16)
    decreases |ops|, 0
  {
    exists i :: 0 <= i < |ops| && ops[i] == Login(u, h) && forall j | i < j < |ops| :: !Ends(ops, j, u, h)
  }

  /** The j-th operation ends u's session on h: another login of u, its removal, or a disconnect of h that takes u. */
  ghost predicate Ends(ops: seq<Op>, j: nat, u: U32, h: U16)
    requires j < |ops|
    decreases j, 3
  {
    || (ops[j].Login? && ops[j].user == u)
    || ops[j] == Logout(u)
    || (ops[j] == Dropped(h) && Takes(ops[..j], h, u))
  }

  /** A disconnect of h takes only the least of the users that sit on h. */
  ghost predicate Takes(ops: seq<Op>, h: U16, u: U32)
    decreases |ops|, 2
  {
    SitsOn(ops, u, h) && forall v: U32 | v < u :: !SitsOn(ops, v, h)
  }

  /** Users sit on the connection they are online on; known users who are offline sit on the invalid one. */
  ghost predicate SitsOn(ops: seq<Op>, u: U32, h: U16)
    decreases |ops|, 1
  {
    OnlineOn(ops, u, h) || (h == 0xFFFF && Known(ops, u) && forall g: U16 :: !OnlineOn(ops, u, g))
  }

  /** u was logged in, or a message was queued for it, and it has not been removed since. */
  ghost predicate Known(ops: seq<Op>, u: U32) {
    exists i :: 0 <= i < |ops| && Introduces(ops[i], u) && forall j | i < j < |ops| :: ops[j] != Logout(u)
  }

  predicate Introduces(op: Op, u: U32) {
    (op.Login? || op.Queue?) && op.user == u
  }

  /** u is online on some connection. */
  ghost predicate Online(ops: seq<Op>, u: U32) {
    exists h: U16 :: OnlineOn(ops, u, h)
  }

  lemma KnownSnoc(ops: seq<Op>, op: Op, u: U32)
    ensures Known(ops + [op], u) <==> Introduces(op, u) || (Known(ops, u) && op != Logout(u))
  {
    var all := ops + [op];
    assert all[|ops|] == op;
    if Known(all, u) && !Introduces(op, u) {
      var i :| 0 <= i < |all| && Introduces(all[i], u) && forall j | i < j < |all| :: all[j] != Logout(u);
      assert ops[i] == all[i];
      assert forall j | i < j < |ops| :: ops[j] == all[j];
    }
    if Known(ops, u) && op != Logout(u) {
      var i :| 0 <= i < |ops| && Introduces(ops[i], u) && forall j | i < j < |ops| :: ops[j] != Logout(u);
      assert all[i] == ops[i];
    }
  }

  lemma EndsSame(ops: seq<Op>, op: Op, j: nat, u: U32, h: U16)
    requires j < |ops|
    ensures Ends(ops + [op], j, u, h) <==> Ends(ops, j, u, h)
  {
    assert (ops + [op])[..j] == ops[..j];
    hide Takes;
  }

  lemma OnlineSnoc(ops: seq<Op>, op: Op, u: U32, h: U16)
    ensures OnlineOn(ops + [op], u, h) <==> op == Login(u, h) || (OnlineOn(ops, u, h) && !Ends(ops + [op], |ops|, u, h))
  {
    hide Ends;
    var all := ops + [op];
    forall j | 0 <= j < |ops| ensures Ends(all, j, u, h) <==> Ends(ops, j, u, h) {
      EndsSame(ops, op, j, u, h);
    }
    assert all[|ops|] == op;
    if OnlineOn(all, u, h) && op != Login(u, h) {
      var i :| 0 <= i < |all| && all[i] == Login(u, h) && forall j | i < j < |all| :: !Ends(all, j, u, h);
      assert ops[i] == all[i];
    }
    if OnlineOn(ops, u, h) && !Ends(all, |ops|, u, h) {
      var i :| 0 <= i < |ops| && ops[i] == Login(u, h) && forall j | i < j < |ops| :: !Ends(ops, j, u, h);
      assert all[i] == ops[i];
    }
    if op == Login(u, h) {
      assert all[|ops|] == Login(u, h);
    }
  }

  /** What the table says of u. */
  ghost predicate Listed(t: Table, ops: seq<Op>, u: U32) {
    && (u in t.users <==> Known(ops, u))
    && (forall h: U16 :: OnlineOn(ops, u, h) <==> u in t.users && t.users[u].connected && t.users[u].handle == h)
    && (u in t.users && !t.users[u].connected ==> t.users[u].handle == 0xFFFF)
  }

  lemma SitsIs(t: Table, ops: seq<Op>, u: U32, h: U16)
    requires Listed(t, ops, u)
    ensures SitsOn(ops, u, h) <==> u in t.users && t.users[u].handle == h
  {
    hide OnlineOn, Known;
    if u in t.users && t.users[u].connected {
      assert OnlineOn(ops, u, t.users[u].handle);
    }
  }

  /** The user a disconnect takes, in the table. */
  lemma TakesIs(t: Table, ops: seq<Op>, u: U32, h: U16)
    requires forall v: U32 :: Listed(t, ops, v)
    ensures Takes(ops, h, u) <==> OnHandle(t, h) != {} && Least(OnHandle(t, h)) == u
  {
    hide SitsOn, Listed;
    forall v: U32 ensures SitsOn(ops, v, h) <==> v in OnHandle(t, h) {
      SitsIs(t, ops, v, h);
    }
    var on := OnHandle(t, h);
    if on != {} {
      assert IsLeast(on, Least(on));
    }
  }

  lemma StepListed(t: Table, ops: seq<Op>, op: Op, u: U32)
    requires forall v: U32 :: Listed(t, ops, v)
    ensures Listed(Apply(t, op), ops + [op], u)
  {
    hide Known, OnlineOn, Takes, DropOldest;
    assert Listed(t, ops, u);
    KnownSnoc(ops, op, u);
    assert (ops + [op])[..|ops|] == ops && (ops + [op])[|ops|] == op;
    if op.Dropped? {
      TakesIs(t, ops, u, op.handle);
    }
    forall h: U16
      ensures OnlineOn(ops + [op], u, h)
              <==> u in Apply(t, op).users && Apply(t, op).users[u].connected && Apply(t, op).users[u].handle == h
    {
      OnlineSnoc(ops, op, u, h);
    }
  }

  lemma {:induction false} AlwaysListed(ops: seq<Op>, u: U32)
    ensures Listed(Play(ops), ops, u)
    decreases |ops|
  {
    if ops != [] {
      var front, op := ops[..|ops| - 1], ops[|ops| - 1];
      forall v: U32 ensures Listed(Play(front), front, v) {
        AlwaysListed(front, v);
      }
      StepListed(Play(front), front, op, u);
      assert ops == front + [op];
      hide Listed, Apply;
    }
  }

  /** After any session operations, in any order: a user is online, and on connection h, if and only if it was logged in
      on h and since that login has neither logged in again, nor been removed, nor been the user a disconnect of h took
      offline; and it is known if and only if it was logged in or queued for and has not been removed since. */
  lemma OnlineIff(ops: seq<Op>, u: U32, h: U16)
    ensures var t := Play(ops);
            && (IsOnline(t, u) && t.users[u].handle == h <==> OnlineOn(ops, u, h))
            && (IsOnline(t, u) <==> Online(ops, u))
            && (Knows(t, u) <==> Known(ops, u))
  {
    AlwaysListed(ops, u);
    hide OnlineOn, Known, Play;
    var t := Play(ops);
    if IsOnline(t, u) {
      assert OnlineOn(ops, u, t.users[u].handle);
    }
  }
}
