/**
 * The socket.io chat: a connection is admitted only when its session carries
 * a user, which stays bound to it for the life of the connection. Each
 * non-empty message is cut to 2000 characters, stamped with the clock,
 * broadcast to every client and then stored in the `messages` collection.
 */
module Chat {
  import opened Wrappers
  import opened Requests
  import opened History
  import Routes

  /** `maxLength` of the message handler. */
  const MAX_LENGTH: nat := 2000

  /** A message longer than MAX_LENGTH is cut to its first MAX_LENGTH characters; a shorter one is kept whole. */
  function Truncate(msg: string): (t: string)
    ensures t <= msg
    ensures |t| == if |msg| > MAX_LENGTH then MAX_LENGTH else |msg|
  {
    if |msg| > MAX_LENGTH then msg[..MAX_LENGTH] else msg
  }

  /**
   * The payload the handler builds from `msg` for the connection's user at clock
   * reading `now`, or None when the message is empty and is ignored.
   */
  function Process(username: string, msg: string, now: int): (p: Option<Message>)
    ensures p.None? <==> msg == ""
    ensures p.Some? ==> p.value.username == username && p.value.date == now
    ensures p.Some? ==> 0 < |p.value.message| <= MAX_LENGTH && p.value.message <= msg
    ensures p.Some? && |msg| <= MAX_LENGTH ==> p.value.message == msg
    ensures p.Some? ==> |p.value.message| == Min(|msg|, MAX_LENGTH)
  {
    if msg == "" then None else Some(Message(username, Truncate(msg), now))
  }

  /** The user a connecting socket is admitted as: its session's user, when there is a session and it has one. */
  function AdmittedUser(session: Routes.Session?): (u: Option<string>)
    reads session
    ensures u.Some? <==> session != null && Truthy(session.user)
    ensures u.Some? ==> u == session.user && u.value != ""
  {
    if session == null || !Truthy(session.user) then None else session.user
  }

  /** What `io.emit` sends to every connected client, in the order it was sent. */
  class Io {
    var outbox: seq<Message>

    constructor ()
      ensures outbox == []
    {
      outbox := [];
    }

    /** Broadcasts one payload to every connected client under the "message" event. */
    method Emit(m: Message)
      modifies this
      ensures outbox == old(outbox) + [m]
    {
      outbox := outbox + [m];
    }
  }

  /**
   * One client connection. `username` is Some exactly when the connection was
   * admitted and its "message" listener attached; `disconnected` records
   * `socket.disconnect(true)`.
   */
  class Socket {
    const session: Routes.Session?
    var disconnected: bool
    var username: Option<string>

    ghost predicate Valid()
      reads this
    {
      (disconnected ==> username.None?) && (username.Some? ==> username.value != "")
    }

    /** A connection whose "connection" event has not been handled yet. */
    constructor (session: Routes.Session?)
      ensures this.session == session
      ensures Valid() && !disconnected && username.None?
    {
      this.session := session;
      disconnected := false;
      username := None;
    }

    /**
     * `io.on("connection")`: without a session, or with a session without a user, the
     * socket is disconnected and no listener is attached; otherwise the user is bound.
     */
    method OnConnection()
      requires Valid() && !disconnected && username.None?
      modifies this
      ensures Valid()
      ensures disconnected <==> AdmittedUser(session).None?
      ensures username == AdmittedUser(session)
    {
      var user := AdmittedUser(session);
      if user.None? {
        disconnected := true;
        return;
      }
      username := user;
    }

    /**
     * The "message" listener: an empty message changes nothing; any other is built into one
     * payload of the bound user, broadcast, then stored, and nothing else changes.
     */
    method OnMessage(msg: string, now: int, io: Io, store: Routes.Store)
      requires Valid() && username.Some?
      requires store.Valid() && Before(store.messages, now)
      modifies io, store
      ensures store.Valid()
      ensures msg == "" ==> io.outbox == old(io.outbox) && store.messages == old(store.messages)
      ensures msg != "" ==>
        var m := Message(username.value, Truncate(msg), now);
        io.outbox == old(io.outbox) + [m] && store.messages == old(store.messages) + [m]
      ensures store.users == old(store.users) && store.events == old(store.events)
      ensures store.favorites == old(store.favorites)
    {
      var payload := Process(username.value, msg, now);
      if payload.None? {
        return;
      }
      io.Emit(payload.value);
      store.InsertMessage(payload.value);
    }
  }

  /** After a message is stored, the history a client fetches ends with it. */
  lemma HistoryEndsWithLatest(log: seq<Message>, m: Message)
    requires Chronological(log) && Before(log, m.date)
    ensures Chronological(log + [m])
    ensures Snapshot(log + [m]) != [] && Snapshot(log + [m])[|Snapshot(log + [m])| - 1] == m
  {
    SnapshotIsRecentTail(log + [m]);
  }
}
