/** The user session manager: values and the class that holds them. */
module Sessions {
  import opened Packets
  import opened Ordered

  const INVALID_HANDLE: U16 := 0xFFFF
  const INBOX_CAP := 10

  datatype MsgKind = PlainMsg | EncryptedMsg | GatewayMsg

  datatype OfflineMsg = OfflineMsg(kind: MsgKind, id: U32, to: U32, sender: U32, data: seq<U8>)

  datatype UserInfo = UserInfo(handle: U16, connected: bool, inbox: seq<OfflineMsg>)

  /** Known users and what changed since the last published difference. */
  datatype Table = Table(users: map<U32, UserInfo>, added: set<U32>, removed: set<U32>)

  const EMPTY := Table(map[], {}, {})

  predicate Knows(t: Table, u: U32) {
    u in t.users
  }

  predicate IsOnline(t: Table, u: U32) {
    u in t.users && t.users[u].connected
  }

  ghost function Inbox(t: Table, u: U32): seq<OfflineMsg> {
    if u in t.users then t.users[u].inbox else []
  }

  ghost function AddOrRefresh(t: Table, u: U32, handle: U16): Table {
    if u in t.users then
      t.(users := t.users[u := t.users[u].(handle := handle, connected := true)])
    else
      Table(t.users[u := UserInfo(handle, true, [])], t.added + {u}, t.removed - {u})
  }

  ghost function Remove(t: Table, u: U32): Table {
    Table(t.users - {u}, t.added - {u}, t.removed + {u})
  }

  /** Users whose session sits on this BLE connection. */
  ghost function OnHandle(t: Table, handle: U16): set<U32> {
    set u | u in t.users && t.users[u].handle == handle
  }

  ghost function Disconnect(t: Table, handle: U16): Table {
    var on := OnHandle(t, handle);
    if on == {} then t
    else
      var u := Least(on);
      t.(users := t.users[u := t.users[u].(connected := false, handle := INVALID_HANDLE)])
  }

  function DropOldest(box: seq<OfflineMsg>, m: OfflineMsg): seq<OfflineMsg> {
    (if |box| == INBOX_CAP then box[1..] else box) + [m]
  }

  ghost function QueueOffline(t: Table, u: U32, m: OfflineMsg): Table {
    var info := if u in t.users then t.users[u] else UserInfo(INVALID_HANDLE, false, []);
    t.(users := t.users[u := info.(inbox := DropOldest(info.inbox, m))])
  }

  ghost function PopInbox(t: Table, u: U32): Table {
    if u in t.users && t.users[u].inbox != [] then t.(users := t.users[u := t.users[u].(inbox := [])]) else t
  }

  ghost function ClearDiff(t: Table): Table {
    t.(added := {}, removed := {})
  }

  class UserSessionManager {
    var users: map<U32, UserInfo>
    var diffAdded: set<U32>
    var diffRemoved: set<U32>

    /** What knowsUser and isOnline read under the read lock. */
    function View(): Table
      reads this
    {
      Table(users, diffAdded, diffRemoved)
    }

    constructor ()
      ensures View() == EMPTY
    {
      users, diffAdded, diffRemoved := map[], {}, {};
    }

    method AddOrRefreshUser(u: U32, handle: U16)
      modifies this
      ensures View() == AddOrRefresh(old(View()), u, handle)
    {
      if u in users {
        var info := users[u];
        users := users[u := info.(handle := handle, connected := true)];
      } else {
        users := users[u := UserInfo(handle, true, [])];
        diffRemoved := diffRemoved - {u};
        diffAdded := diffAdded + {u};
      }
    }

    method RemoveUser(u: U32)
      modifies this
      ensures View() == Remove(old(View()), u)
    {
      users := users - {u};
      diffAdded := diffAdded - {u};
      diffRemoved := diffRemoved + {u};
    }

    /** Walks the users in key order and stops at the first match. */
    method HandleBleDisconnect(handle: U16)
      modifies this
      ensures View() == Disconnect(old(View()), handle)
    {
      var keys := Listed(users.Keys);
      AscendingIsSorted(users.Keys);
      var i := 0;
      while i < |keys|
        invariant 0 <= i <= |keys|
        invariant View() == old(View())
        invariant forall j | 0 <= j < i :: users[keys[j]].handle != handle
      {
        var u := keys[i];
        if users[u].handle == handle {
          assert IsLeast(OnHandle(View(), handle), u) by {
            forall x | x in OnHandle(View(), handle) ensures u <= x {
              var j :| 0 <= j < |keys| && keys[j] == x;
            }
          }
          users := users[u := users[u].(connected := false, handle := INVALID_HANDLE)];
          return;
        }
        i := i + 1;
      }
      forall x | x in users
        ensures users[x].handle != handle
      {
        assert x in keys;
      }
      assert OnHandle(View(), handle) == {};
    }

    method QueueOfflineMsg(u: U32, m: OfflineMsg)
      modifies this
      ensures View() == QueueOffline(old(View()), u, m)
    {
      if u !in users {
        users := users[u := UserInfo(INVALID_HANDLE, false, [])];
      }
      var box := users[u].inbox;
      if |box| == INBOX_CAP {
        box := box[1..];
      }
      box := box + [m];
      users := users[u := users[u].(inbox := box)];
    }

    method PopUserInbox(u: U32) returns (found: bool, out: seq<OfflineMsg>)
      modifies this
      ensures View() == PopInbox(old(View()), u)
      ensures out == old(Inbox(View(), u)) && found == (out != [])
    {
      if u !in users || users[u].inbox == [] {
        return false, [];
      }
      found, out := true, users[u].inbox;
      users := users[u := users[u].(inbox := [])];
    }

    method GetAndClearDiff() returns (added: seq<U32>, removed: seq<U32>)
      modifies this
      ensures added == Ascending(old(diffAdded)) && removed == Ascending(old(diffRemoved))
      ensures View() == ClearDiff(old(View()))
    {
      added := Listed(diffAdded);
      removed := Listed(diffRemoved);
      diffAdded, diffRemoved := {}, {};
    }
  }
}
