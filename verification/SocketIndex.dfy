/** src/notifications gateway: which sockets belong to which user and admin. */
module SocketIndex {
  import opened Wrappers

  /** The authenticated side of a socket.  A missing id is "". */
  datatype Auth = UserAuth(id: string) | AdminAuth(id: string)

  /** The sockets of one id, found by scanning the auth map. */
  function SocketsOf(auths: map<string, Auth>, a: Auth): set<string> {
    set s | s in auths && auths[s] == a
  }

  /** Adding a socket to the set of an id. */
  function AddTo(index: map<string, set<string>>, id: string, s: string): map<string, set<string>> {
    index[id := (if id in index then index[id] else {}) + {s}]
  }

  /** Removing it, and the set when it becomes empty. */
  function RemoveFrom(index: map<string, set<string>>, id: string, s: string): map<string, set<string>> {
    if id !in index then index
    else if index[id] - {s} == {} then index - {id}
    else index[id := index[id] - {s}]
  }

  function Side(user: bool, id: string): Auth {
    if user then UserAuth(id) else AdminAuth(id)
  }

  /** One index is exactly the inverse of the auth map, restricted to its side and to sockets with an id. */
  ghost predicate InverseSide(auths: map<string, Auth>, index: map<string, set<string>>, user: bool) {
    && (forall id :: id in index ==> id != "" && index[id] != {} && index[id] == SocketsOf(auths, Side(user, id)))
    && (forall s :: s in auths && auths[s].id != "" && auths[s].UserAuth? == user ==> auths[s].id in index)
  }

  ghost predicate Inverse(auths: map<string, Auth>, users: map<string, set<string>>, admins: map<string, set<string>>) {
    InverseSide(auths, users, true) && InverseSide(auths, admins, false)
  }

  class NotificationsGateway {
    var socketAuthMap: map<string, Auth>
    var userSockets: map<string, set<string>>
    var adminSockets: map<string, set<string>>

    ghost predicate Valid()
      reads this
    {
      Inverse(socketAuthMap, userSockets, adminSockets)
    }

    constructor ()
      ensures Valid() && socketAuthMap == map[]
    {
      socketAuthMap, userSockets, adminSockets := map[], map[], map[];
    }

    /**
     What follows the token check.  A connection that does not authenticate is closed and leaves no
     trace.  Socket ids are fresh; the socket may have closed meanwhile.
     */
    method HandleConnection(client: string, auth: Option<Auth>)
      requires Valid() && client !in socketAuthMap
      modifies this
      ensures Valid()
      ensures if auth.None?
              then unchanged(this)
              else && socketAuthMap == old(socketAuthMap)[client := auth.value]
                   && userSockets == After(old(userSockets), true, client, auth.value)
                   && adminSockets == After(old(adminSockets), false, client, auth.value)
    {
      if auth.None? {
        return;
      }
      ConnectingKeepsInverse(socketAuthMap, userSockets, adminSockets, client, auth.value);
      socketAuthMap := socketAuthMap[client := auth.value];
      if auth.value.UserAuth? && auth.value.id != "" {
        if auth.value.id !in userSockets {
          userSockets := userSockets[auth.value.id := {}];
        }
        userSockets := userSockets[auth.value.id := userSockets[auth.value.id] + {client}];
        assert userSockets == AddTo(old(userSockets), auth.value.id, client);
      } else if auth.value.AdminAuth? && auth.value.id != "" {
        if auth.value.id !in adminSockets {
          adminSockets := adminSockets[auth.value.id := {}];
        }
        adminSockets := adminSockets[auth.value.id := adminSockets[auth.value.id] + {client}];
        assert adminSockets == AddTo(old(adminSockets), auth.value.id, client);
      }
    }

    method HandleDisconnect(client: string)
      requires Valid()
      modifies this
      ensures Valid()
      ensures socketAuthMap == old(socketAuthMap) - {client}
      ensures if client in old(socketAuthMap)
              then && userSockets == Without(old(userSockets), true, client, old(socketAuthMap)[client])
                   && adminSockets == Without(old(adminSockets), false, client, old(socketAuthMap)[client])
              else userSockets == old(userSockets) && adminSockets == old(adminSockets)
    {
      if client in socketAuthMap {
        var auth := socketAuthMap[client];
        DisconnectingKeepsInverse(socketAuthMap, userSockets, adminSockets, client);
        if auth.UserAuth? && auth.id != "" {
          if auth.id in userSockets {
            userSockets := userSockets[auth.id := userSockets[auth.id] - {client}];
            if userSockets[auth.id] == {} {
              userSockets := userSockets - {auth.id};
            }
            assert userSockets == RemoveFrom(old(userSockets), auth.id, client);
          }
        } else if auth.AdminAuth? && auth.id != "" {
          if auth.id in adminSockets {
            adminSockets := adminSockets[auth.id := adminSockets[auth.id] - {client}];
            if adminSockets[auth.id] == {} {
              adminSockets := adminSockets - {auth.id};
            }
            assert adminSockets == RemoveFrom(old(adminSockets), auth.id, client);
          }
        }
      }
      socketAuthMap := socketAuthMap - {client};
    }

    /** A user is online exactly when a scan of the auth map finds a socket of theirs. */
    method IsUserOnline(id: string) returns (online: bool)
      requires Valid()
      ensures online <==> id != "" && exists s :: s in socketAuthMap && socketAuthMap[s] == UserAuth(id)
    {
      OnlineIsScanned(socketAuthMap, userSockets, true, id);
      return id in userSockets && |userSockets[id]| > 0;
    }

    method IsAdminOnline(id: string) returns (online: bool)
      requires Valid()
      ensures online <==> id != "" && exists s :: s in socketAuthMap && socketAuthMap[s] == AdminAuth(id)
    {
      OnlineIsScanned(socketAuthMap, adminSockets, false, id);
      return id in adminSockets && |adminSockets[id]| > 0;
    }
  }

  // ---------- The index as values ----------

  function After(index: map<string, set<string>>, user: bool, s: string, a: Auth): map<string, set<string>> {
    if a.UserAuth? == user && a.id != "" then AddTo(index, a.id, s) else index
  }

  function Without(index: map<string, set<string>>, user: bool, s: string, a: Auth): map<string, set<string>> {
    if a.UserAuth? == user then RemoveFrom(index, a.id, s) else index
  }

  lemma SocketsAfter(auths: map<string, Auth>, s: string, a: Auth, b: Auth)
    ensures SocketsOf(auths[s := a], b) == (SocketsOf(auths, b) - {s}) + if a == b then {s} else {}
  {
  }

  lemma ConnectingKeepsSide(auths: map<string, Auth>, index: map<string, set<string>>, user: bool, s: string, a: Auth)
    requires InverseSide(auths, index, user)
    requires s in auths ==> auths[s] == a || auths[s].id == "" || auths[s].UserAuth? != user
    ensures InverseSide(auths[s := a], After(index, user, s, a), user)
  {
    var after := After(index, user, s, a);
    forall id | id in after
      ensures id != "" && after[id] != {} && after[id] == SocketsOf(auths[s := a], Side(user, id))
    {
      var b := Side(user, id);
      SocketsAfter(auths, s, a, b);
      assert s in SocketsOf(auths, b) ==> a == b;
      if id !in index {
        assert SocketsOf(auths, b) == {};
      }
    }
  }

  lemma ConnectingKeepsInverse(auths: map<string, Auth>, users: map<string, set<string>>,
                               admins: map<string, set<string>>, s: string, a: Auth)
    requires Inverse(auths, users, admins) && s !in auths
    ensures Inverse(auths[s := a], After(users, true, s, a), After(admins, false, s, a))
  {
    ConnectingKeepsSide(auths, users, true, s, a);
    ConnectingKeepsSide(auths, admins, false, s, a);
  }

  lemma DisconnectingKeepsSide(auths: map<string, Auth>, index: map<string, set<string>>, user: bool, s: string)
    requires InverseSide(auths, index, user) && s in auths
    ensures InverseSide(auths - {s}, Without(index, user, s, auths[s]), user)
  {
    forall b: Auth
      ensures SocketsOf(auths - {s}, b) == SocketsOf(auths, b) - {s}
      ensures auths[s] != b ==> s !in SocketsOf(auths, b)
    {
    }
    forall x | x in auths - {s} && auths[x].id != ""
      ensures x in SocketsOf(auths, auths[x]) - {s}
    {
    }
  }

  lemma DisconnectingKeepsInverse(auths: map<string, Auth>, users: map<string, set<string>>,
                                  admins: map<string, set<string>>, s: string)
    requires Inverse(auths, users, admins) && s in auths
    ensures Inverse(auths - {s}, Without(users, true, s, auths[s]), Without(admins, false, s, auths[s]))
  {
    DisconnectingKeepsSide(auths, users, true, s);
    DisconnectingKeepsSide(auths, admins, false, s);
  }

  lemma OnlineIsScanned(auths: map<string, Auth>, index: map<string, set<string>>, user: bool, id: string)
    requires InverseSide(auths, index, user)
    ensures id in index && |index[id]| > 0 <==> id != "" && exists s :: s in auths && auths[s] == Side(user, id)
  {
    if id in index {
      var s :| s in index[id];
      assert s in SocketsOf(auths, Side(user, id));
    }
  }

  /** Connecting a fresh socket and disconnecting it again leaves the index as it was. */
  lemma DisconnectUndoesConnect(auths: map<string, Auth>, index: map<string, set<string>>, user: bool, s: string,
                                a: Auth)
    requires InverseSide(auths, index, user) && s !in auths
    ensures auths[s := a] - {s} == auths
    ensures Without(After(index, user, s, a), user, s, a) == index
  {
    if a.id in index && a.UserAuth? == user {
      assert s !in SocketsOf(auths, Side(user, a.id));
      assert index[a.id] + {s} - {s} == index[a.id];
    }
  }

  /**
   Freshness is needed: a socket id that connects again as somebody else stays in the set of the
   first, so that side's index is the inverse afterwards exactly when the socket was not on this
   side under an id, or connects as the same one.
   */
  lemma ReuseBreaksTheIndex(auths: map<string, Auth>, index: map<string, set<string>>, user: bool, s: string, a: Auth)
    requires InverseSide(auths, index, user) && s in auths
    ensures InverseSide(auths[s := a], After(index, user, s, a), user)
            <==> (auths[s] == a || auths[s].id == "" || auths[s].UserAuth? != user)
  {
    if auths[s] == a || auths[s].id == "" || auths[s].UserAuth? != user {
      ConnectingKeepsSide(auths, index, user, s, a);
    } else {
      assert s in SocketsOf(auths, auths[s]);
      SocketsAfter(auths, s, a, auths[s]);
    }
  }

  // ---------- Sockets that close while their token is checked ----------

  /** handleConnection waits for the token check before it enters the socket; meanwhile the socket may close. */
  datatype NetEvent = Opens(s: string) | Authenticates(s: string, auth: Option<Auth>) | Closes(s: string)

  /** The ids ever used, the sockets being checked, those open, and what the gateway keeps. */
  datatype Net = Net(used: set<string>, waiting: set<string>, open: set<string>, auths: map<string, Auth>,
                     users: map<string, set<string>>, admins: map<string, set<string>>)

  predicate Possible(n: Net, e: NetEvent) {
    match e
    case Opens(s) => s !in n.used
    case Authenticates(s, _) => s in n.waiting
    case Closes(s) => s in n.open
  }

  function React(n: Net, e: NetEvent): Net {
    match e
    case Opens(s) => n.(used := n.used + {s}, waiting := n.waiting + {s}, open := n.open + {s})
    case Authenticates(s, auth) =>
      if auth.None? then n.(waiting := n.waiting - {s})
      else n.(waiting := n.waiting - {s}, auths := n.auths[s := auth.value],
              users := After(n.users, true, s, auth.value), admins := After(n.admins, false, s, auth.value))
    case Closes(s) =>
      if s !in n.auths then n.(open := n.open - {s})
      else n.(open := n.open - {s}, auths := n.auths - {s}, users := Without(n.users, true, s, n.auths[s]),
              admins := Without(n.admins, false, s, n.auths[s]))
  }

  function Reached(es: seq<NetEvent>): Net {
    if es == [] then Net({}, {}, {}, map[], map[], map[]) else React(Reached(es[..|es| - 1]), es[|es| - 1])
  }

  predicate PossibleRun(es: seq<NetEvent>) {
    es == [] || (PossibleRun(es[..|es| - 1]) && Possible(Reached(es[..|es| - 1]), es[|es| - 1]))
  }

  /** The sockets that passed the check after they had closed. */
  function Late(es: seq<NetEvent>): set<string> {
    if es == [] then {}
    else
      var e := es[|es| - 1];
      Late(es[..|es| - 1])
      + if e.Authenticates? && e.auth.Some? && e.s !in Reached(es[..|es| - 1]).open then {e.s} else {}
  }

  ghost predicate NetSound(n: Net, late: set<string>) {
    && n.waiting <= n.used && n.open <= n.used && n.auths.Keys <= n.used && n.waiting !! n.auths.Keys
    && n.auths.Keys - n.open == late
    && Inverse(n.auths, n.users, n.admins)
  }

  lemma ReactKeepsSound(n: Net, late: set<string>, e: NetEvent)
    requires NetSound(n, late) && Possible(n, e)
    ensures NetSound(React(n, e), late + if e.Authenticates? && e.auth.Some? && e.s !in n.open then {e.s} else {})
  {
    match e
    case Opens(s) => assert s !in n.auths.Keys;
    case Authenticates(s, auth) =>
      if auth.Some? {
        ConnectingKeepsInverse(n.auths, n.users, n.admins, s, auth.value);
      }
    case Closes(s) =>
      if s in n.auths {
        DisconnectingKeepsInverse(n.auths, n.users, n.admins, s);
      }
  }

  /**
   In whatever order sockets open, authenticate and close, both maps stay the inverse of the auth map,
   and the sockets it holds that are no longer open are exactly those that authenticated too late.
   */
  lemma {:induction false} OnlyLateSocketsLinger(es: seq<NetEvent>)
    requires PossibleRun(es)
    ensures NetSound(Reached(es), Late(es))
  {
    if es == [] {
      assert Reached(es).auths == map[];
    } else {
      OnlyLateSocketsLinger(es[..|es| - 1]);
      ReactKeepsSound(Reached(es[..|es| - 1]), Late(es[..|es| - 1]), es[|es| - 1]);
    }
  }

  predicate Online(index: map<string, set<string>>, id: string) {
    id in index && |index[id]| > 0
  }

  ghost predicate HasSocket(auths: map<string, Auth>, among: set<string>, a: Auth) {
    exists s :: s in among && s in auths && auths[s] == a
  }

  /** So an id is shown online exactly if it has an open socket or one that authenticated too late. */
  lemma OnlineIsOpenOrLate(es: seq<NetEvent>, user: bool, id: string)
    requires PossibleRun(es) && id != ""
    ensures var n := Reached(es);
            Online(if user then n.users else n.admins, id)
            <==> HasSocket(n.auths, n.open, Side(user, id)) || HasSocket(n.auths, Late(es), Side(user, id))
  {
    var n := Reached(es);
    OnlyLateSocketsLinger(es);
    OnlineIsScanned(n.auths, if user then n.users else n.admins, user, id);
    if Online(if user then n.users else n.admins, id) {
      var s :| s in n.auths && n.auths[s] == Side(user, id);
      assert s in n.open || s in n.auths.Keys - n.open;
    }
  }
}
