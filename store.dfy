/**
 * The client's global store: the session (token and user), the notification
 * list, the loading flag and the realtime socket, with the actions that
 * update them, and the part of the state that is persisted.
 */
module Store {
  import opened Wrappers
  import Seqs

  /** The user record the client keeps after login. */
  datatype SessionUser = SessionUser(id: string, name: string, email: string, role: string,
                                     created_at: string, updated_at: string)

  datatype Notification = Notification(id: string, kind: string, message: string)

  /** A realtime connection, known to the store only by its handle. */
  datatype Socket = Socket(handle: nat)

  /** The persisted part of the state. */
  datatype Persisted = Persisted(auth_token: Option<string>, auth_user: Option<SessionUser>,
                                 notifications: seq<Notification>)

  function IdIsNot(id: string): Notification -> bool {
    (n: Notification) => n.id != id
  }

  /** The notifications but those with the given id, in their order. */
  function Without(ns: seq<Notification>, id: string): seq<Notification> {
    Seqs.Filter(ns, IdIsNot(id))
  }

  /** Exactly the entries with another id remain. */
  lemma WithoutMembers(ns: seq<Notification>, id: string)
    ensures forall n :: n in Without(ns, id) ==> n in ns && n.id != id
    ensures forall n :: n in ns && n.id != id ==> n in Without(ns, id)
  {
    Seqs.FilterMembers(ns, IdIsNot(id));
  }

  /** An id that is not in the list changes nothing. */
  lemma WithoutAbsent(ns: seq<Notification>, id: string)
    requires forall n :: n in ns ==> n.id != id
    ensures Without(ns, id) == ns
  {
    Seqs.FilterAll(ns, IdIsNot(id));
  }

  /** Removing twice is removing once. */
  lemma WithoutIdempotent(ns: seq<Notification>, id: string)
    ensures Without(Without(ns, id), id) == Without(ns, id)
  {
    Seqs.FilterNarrow(ns, IdIsNot(id), IdIsNot(id));
  }

  /** Removing two ids in either order gives the same list. */
  lemma WithoutCommutes(ns: seq<Notification>, a: string, b: string)
    ensures Without(Without(ns, a), b) == Without(Without(ns, b), a)
  {
    var both := (n: Notification) => n.id != a && n.id != b;
    WithoutMembers(ns, a);
    WithoutMembers(ns, b);
    assert forall x :: x in Without(ns, a) ==> (IdIsNot(b)(x) <==> both(x));
    assert forall x :: x in Without(ns, b) ==> (IdIsNot(a)(x) <==> both(x));
    Seqs.FilterCongruent(Without(ns, a), IdIsNot(b), both);
    Seqs.FilterCongruent(Without(ns, b), IdIsNot(a), both);
    Seqs.FilterNarrow(ns, IdIsNot(a), both);
    Seqs.FilterNarrow(ns, IdIsNot(b), both);
  }

  /** An entry added and then removed by its id leaves what removing alone leaves. */
  lemma AddThenRemove(ns: seq<Notification>, n: Notification)
    ensures Without(ns + [n], n.id) == Without(ns, n.id)
  {
    Seqs.FilterAppend(ns, [n], IdIsNot(n.id));
  }

  /** Removing keeps the relative order: what remains is an order-preserving part of the list. */
  lemma WithoutKeepsOrder(ns: seq<Notification>, id: string, x: Notification)
    ensures Without([x] + ns, id) == if x.id == id then Without(ns, id) else [x] + Without(ns, id)
  {
    Seqs.FilterCons(x, ns, IdIsNot(id));
  }

  class AppStore {
    var auth_token: Option<string>
    var auth_user: Option<SessionUser>
    var notifications: seq<Notification>
    var is_loading: bool
    var socket: Option<Socket>
    /** The sockets the store has told to disconnect, oldest first. */
    var disconnected: seq<Socket>

    /** The state the store starts from. */
    constructor ()
      ensures auth_token == None && auth_user == None && notifications == []
      ensures !is_loading && socket == None && disconnected == []
    {
      auth_token, auth_user, notifications := None, None, [];
      is_loading, socket, disconnected := false, None, [];
    }

    /** What `partialize` hands to storage. */
    function Partialize(): (p: Persisted)
      reads this
      ensures p.auth_token == auth_token && p.auth_user == auth_user && p.notifications == notifications
    {
      Persisted(auth_token, auth_user, notifications)
    }

    method SetAuthDetails(token: string, user: SessionUser)
      modifies this
      ensures auth_token == Some(token) && auth_user == Some(user)
      ensures notifications == old(notifications) && is_loading == old(is_loading)
      ensures socket == old(socket) && disconnected == old(disconnected)
    {
      auth_token, auth_user := Some(token), Some(user);
    }

    /** Logging out disconnects the socket if there is one and forgets the session. */
    method ClearAuth()
      modifies this
      ensures auth_token == None && auth_user == None && socket == None
      ensures disconnected == old(disconnected) + if old(socket).Some? then [old(socket).value] else []
      ensures notifications == old(notifications) && is_loading == old(is_loading)
    {
      if socket.Some? {
        disconnected := disconnected + [socket.value];
      }
      auth_token, auth_user, socket := None, None, None;
    }

    method SetLoading(loading: bool)
      modifies this
      ensures is_loading == loading
      ensures auth_token == old(auth_token) && auth_user == old(auth_user) && notifications == old(notifications)
      ensures socket == old(socket) && disconnected == old(disconnected)
    {
      is_loading := loading;
    }

    method AddNotification(n: Notification)
      modifies this
      ensures notifications == old(notifications) + [n]
      ensures auth_token == old(auth_token) && auth_user == old(auth_user) && is_loading == old(is_loading)
      ensures socket == old(socket) && disconnected == old(disconnected)
    {
      notifications := notifications + [n];
    }

    method RemoveNotification(id: string)
      modifies this
      ensures notifications == Without(old(notifications), id)
      ensures auth_token == old(auth_token) && auth_user == old(auth_user) && is_loading == old(is_loading)
      ensures socket == old(socket) && disconnected == old(disconnected)
    {
      notifications := Without(notifications, id);
    }

    method ClearNotifications()
      modifies this
      ensures notifications == []
      ensures auth_token == old(auth_token) && auth_user == old(auth_user) && is_loading == old(is_loading)
      ensures socket == old(socket) && disconnected == old(disconnected)
    {
      notifications := [];
    }

    /**
     * Connects once: `created` is the connection the runtime would open, and
     * it is kept only when the store has none.
     */
    method InitSocket(created: Socket)
      modifies this
      ensures socket == if old(socket).Some? then old(socket) else Some(created)
      ensures auth_token == old(auth_token) && auth_user == old(auth_user) && notifications == old(notifications)
      ensures is_loading == old(is_loading) && disconnected == old(disconnected)
    {
      if socket.None? {
        socket := Some(created);
      }
    }

    method DisconnectSocket()
      modifies this
      ensures socket == None
      ensures disconnected == old(disconnected) + if old(socket).Some? then [old(socket).value] else []
      ensures auth_token == old(auth_token) && auth_user == old(auth_user) && notifications == old(notifications)
      ensures is_loading == old(is_loading)
    {
      if socket.Some? {
        disconnected := disconnected + [socket.value];
        socket := None;
      }
    }

    method SetSocket(s: Socket)
      modifies this
      ensures socket == Some(s)
      ensures auth_token == old(auth_token) && auth_user == old(auth_user) && notifications == old(notifications)
      ensures is_loading == old(is_loading) && disconnected == old(disconnected)
    {
      socket := Some(s);
    }
  }

  /**
   * A session: log in, connect, get a notification, dismiss it twice, log
   * out. The socket is disconnected once, the session is gone, and the
   * persisted state holds no token.
   */
  method SessionScenario(token: string, user: SessionUser, sock: Socket, n: Notification) returns (p: Persisted)
    ensures p == Persisted(None, None, [])
  {
    var s := new AppStore();
    s.SetAuthDetails(token, user);
    s.InitSocket(sock);
    s.InitSocket(Socket(sock.handle + 1));
    assert s.socket == Some(sock);
    s.AddNotification(n);
    s.RemoveNotification(n.id);
    s.RemoveNotification(n.id);
    assert s.notifications == [] by {
      AddThenRemove([], n);
    }
    s.ClearAuth();
    assert s.disconnected == [sock];
    p := s.Partialize();
  }
}
