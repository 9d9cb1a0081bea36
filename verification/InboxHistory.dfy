/** The inbox of an offline user, over any interleaving of session operations. */
module InboxHistory {
  import opened Packets
  import opened Ordered
  import opened Sessions

  datatype Op =
    | Login(user: U32, handle: U16)
    | Logout(user: U32)
    | Dropped(handle: U16)
    | Queue(user: U32, msg: OfflineMsg)
    | Pop(user: U32)
    | Publish

  ghost function Apply(t: Table, op: Op): Table {
    match op
    case Login(u, h) => AddOrRefresh(t, u, h)
    case Logout(u) => Remove(t, u)
    case Dropped(h) => Disconnect(t, h)
    case Queue(u, m) => QueueOffline(t, u, m)
    case Pop(u) => PopInbox(t, u)
    case Publish => ClearDiff(t)
  }

  ghost function Play(ops: seq<Op>): Table
    decreases |ops|
  {
    if ops == [] then EMPTY else Apply(Play(ops[..|ops| - 1]), ops[|ops| - 1])
  }

  /** Everything queued for user u since the inbox was last popped or the user removed. */
  function Queued(ops: seq<Op>, u: U32): seq<OfflineMsg>
    decreases |ops|
  {
    if ops == [] then []
    else
      var before := Queued(ops[..|ops| - 1], u);
      match ops[|ops| - 1]
      case Queue(v, m) => if u == v then before + [m] else before
      case Pop(v) => if u == v then [] else before
      case Logout(v) => if u == v then [] else before
      case _ => before
  }

  function Newest(s: seq<OfflineMsg>): seq<OfflineMsg> {
    if |s| <= INBOX_CAP then s else s[|s| - INBOX_CAP..]
  }

  lemma DropOldestIsNewest(s: seq<OfflineMsg>, m: OfflineMsg)
    ensures DropOldest(Newest(s), m) == Newest(s + [m])
  {
  }

  /** One operation leaves every inbox but the one it names as it was. */
  lemma OthersUntouched(t: Table, op: Op, u: U32)
    requires (op.Queue? || op.Pop? || op.Logout?) ==> op.user != u
    ensures Inbox(Apply(t, op), u) == Inbox(t, u)
  {
  }

  /** After any operations the inbox of u holds the newest ten of what was queued for u since it was
      last emptied, oldest first; that is also what the next pop returns. */
  lemma {:induction false} InboxIsNewest(ops: seq<Op>, u: U32)
    ensures Inbox(Play(ops), u) == Newest(Queued(ops, u))
    decreases |ops|
  {
    if ops != [] {
      var before, op := ops[..|ops| - 1], ops[|ops| - 1];
      InboxIsNewest(before, u);
      if (op.Queue? || op.Pop? || op.Logout?) && op.user == u {
        if op.Queue? {
          DropOldestIsNewest(Queued(before, u), op.msg);
        }
      } else {
        OthersUntouched(Play(before), op, u);
      }
    }
  }
}
