/**
 * The store-backed HTTP routes as steps of a state machine. The MongoDB
 * collections `users`, `events`, `favorites` and `messages` are fields of a
 * Store; the express session is a Session object. Each handler runs as one
 * atomic step, answers with an HTTP status and changes the collections it
 * writes to, and only those.
 */
module Routes {
  import opened Wrappers
  import opened Requests
  import opened History

  /** A user document without its `username`, by which the `users` collection is keyed here. */
  datatype User = User(password: string, status: string, profile: Profile)

  /** An event document: the username of its creator and the fields it was created or patched with. */
  datatype Event = Event(owner: string, fields: EventBody)

  /** A favorite document `{ username, eventId }`; eventId is the `:id` path parameter as the client wrote it. */
  datatype Favorite = Favorite(username: string, eventId: string)

  /** The answer of GET /details: the user, the events they created and the ids of the events they favorited. */
  datatype Details = Details(user: User, events: map<ObjectId, Event>, favorites: seq<string>)

  /** The answer of GET /event/:id: the event and the usernames that favorited it. */
  datatype EventDetails = EventDetails(event: Event, favoritedBy: seq<string>)

  /** The document POST /register inserts: status "user" and every profile field null. */
  function NewUser(password: string): (u: User)
    ensures u.password == password && u.status == "user"
    ensures forall f :: ProfileGet(u.profile, f) == None
  {
    User(password, "user", Profile(None, None, None, None))
  }

  /** `findOne({ _id, username })` finds the event: it exists and `username` created it. */
  predicate Owns(events: map<ObjectId, Event>, key: ObjectId, username: string)
  {
    key in events && events[key].owner == username
  }

  predicate NoDuplicates(favorites: seq<Favorite>)
  {
    forall i, j :: 0 <= i < j < |favorites| ==> favorites[i] != favorites[j]
  }

  /** `deleteOne`: drops the first favorite equal to `f`, if there is one. */
  function DeleteFirst(favorites: seq<Favorite>, f: Favorite): (r: seq<Favorite>)
    ensures multiset(r) == multiset(favorites) - multiset{f}
    ensures forall g :: g in r ==> g in favorites
    ensures forall g :: g != f ==> (g in r <==> g in favorites)
  {
    if favorites == [] then []
    else
      assert favorites == [favorites[0]] + favorites[1..];
      if favorites[0] == f then favorites[1..]
      else [favorites[0]] + DeleteFirst(favorites[1..], f)
  }

  /** The favorites after the first stay duplicate-free and never repeat the first. */
  lemma DropFirstUnique(favorites: seq<Favorite>)
    requires favorites != [] && NoDuplicates(favorites)
    ensures NoDuplicates(favorites[1..]) && favorites[0] !in favorites[1..]
  {
    var rest := favorites[1..];
    forall j | 0 <= j < |rest|
      ensures rest[j] != favorites[0]
    {
      assert rest[j] == favorites[j + 1];
    }
    forall i, j | 0 <= i < j < |rest|
      ensures rest[i] != rest[j]
    {
      assert rest[i] == favorites[i + 1] && rest[j] == favorites[j + 1];
    }
  }

  /** Putting a favorite not yet listed in front of a duplicate-free list keeps it duplicate-free. */
  lemma PrependUnique(f: Favorite, favorites: seq<Favorite>)
    requires NoDuplicates(favorites) && f !in favorites
    ensures NoDuplicates([f] + favorites)
  {
    var r := [f] + favorites;
    forall i, j | 0 <= i < j < |r|
      ensures r[i] != r[j]
    {
      assert r[j] == favorites[j - 1];
      if i > 0 {
        assert r[i] == favorites[i - 1];
      }
    }
  }

  /** Without duplicates, deleting a favorite removes exactly that one and keeps the rest duplicate-free. */
  lemma {:induction false} DeleteFirstExact(favorites: seq<Favorite>, f: Favorite)
    requires NoDuplicates(favorites)
    ensures NoDuplicates(DeleteFirst(favorites, f))
    ensures f !in DeleteFirst(favorites, f)
  {
    if favorites != [] {
      var rest := favorites[1..];
      DropFirstUnique(favorites);
      if favorites[0] != f {
        DeleteFirstExact(rest, f);
        var r := DeleteFirst(rest, f);
        assert favorites[0] !in r;
        assert DeleteFirst(favorites, f) == [favorites[0]] + r;
        PrependUnique(favorites[0], r);
      }
    }
  }

  /** The event ids `username` favorited, in insertion order. */
  function FavoritesOf(favorites: seq<Favorite>, username: string): (ids: seq<string>)
    ensures forall id :: id in ids <==> Favorite(username, id) in favorites
  {
    if favorites == [] then []
    else
      var rest := FavoritesOf(favorites[1..], username);
      assert favorites == [favorites[0]] + favorites[1..];
      if favorites[0].username == username then [favorites[0].eventId] + rest else rest
  }

  /** The usernames that favorited the event written `eventId`, in insertion order. */
  function FavoritedBy(favorites: seq<Favorite>, eventId: string): (names: seq<string>)
    ensures forall u :: u in names <==> Favorite(u, eventId) in favorites
  {
    if favorites == [] then []
    else
      var rest := FavoritedBy(favorites[1..], eventId);
      assert favorites == [favorites[0]] + favorites[1..];
      if favorites[0].eventId == eventId then [favorites[0].username] + rest else rest
  }

  /** The express session of one client. */
  class Session {
    var user: Option<string>

    constructor ()
      ensures user == None
    {
      user := None;
    }

    /** POST /logout: `session.destroy()`; whatever the client sends next comes with no user. */
    method Logout() returns (status: nat)
      modifies this
      ensures user == None && status == OK
    {
      user := None;
      status := OK;
    }
  }

  /** The four MongoDB collections the server uses. */
  class Store {
    var users: map<string, User>
    var events: map<ObjectId, Event>
    var favorites: seq<Favorite>
    var messages: seq<Message>

    /** What every handler keeps: no favorite twice, and messages in the order they were stamped. */
    ghost predicate Valid()
      reads this
    {
      NoDuplicates(favorites) && Chronological(messages)
    }

    constructor ()
      ensures Valid()
      ensures users == map[] && events == map[] && favorites == [] && messages == []
    {
      users, events, favorites, messages := map[], map[], [], [];
    }

    /** POST /register: 409 when the username is taken, otherwise a new user with default fields and 201. */
    method Register(username: string, password: string) returns (status: nat)
      requires Valid()
      modifies this
      ensures Valid()
      ensures status == CONFLICT <==> username in old(users)
      ensures status == CONFLICT ==> users == old(users)
      ensures status != CONFLICT ==> status == CREATED && users == old(users)[username := NewUser(password)]
      ensures events == old(events) && favorites == old(favorites) && messages == old(messages)
    {
      if username in users {
        status := CONFLICT;
      } else {
        users := users[username := NewUser(password)];
        status := CREATED;
      }
    }

    /** POST /login: when a user has this username and password, the session gets the user and 200; otherwise 401. */
    method Login(session: Session, username: string, password: string) returns (status: nat)
      modifies session
      ensures status == OK <==> username in users && users[username].password == password
      ensures status == OK ==> session.user == Some(username)
      ensures status != OK ==> status == UNAUTHORIZED && session.user == old(session.user)
    {
      if username in users && users[username].password == password {
        session.user := Some(username);
        status := OK;
      } else {
        status := UNAUTHORIZED;
      }
    }

    /** GET /details: the session user's document, the events they created and their favorites; 401 or 404 otherwise. */
    method GetDetails(session: Session) returns (status: nat, details: Option<Details>)
      ensures !Truthy(session.user) ==> status == UNAUTHORIZED && details == None
      ensures Truthy(session.user) && session.user.value !in users ==> status == NOT_FOUND && details == None
      ensures Truthy(session.user) && session.user.value in users ==>
        var u := session.user.value;
        && status == OK && details.Some?
        && details.value.user == users[u]
        && (forall key :: key in details.value.events <==> Owns(events, key, u))
        && (forall key :: key in details.value.events ==> details.value.events[key] == events[key])
        && (forall id :: id in details.value.favorites <==> Favorite(u, id) in favorites)
    {
      if Auth(session.user).Halt? {
        return UNAUTHORIZED, None;
      }
      var u := session.user.value;
      var created := map key | key in events && events[key].owner == u :: events[key];
      var ids := FavoritesOf(favorites, u);
      if u in users {
        status, details := OK, Some(Details(users[u], created, ids));
      } else {
        status, details := NOT_FOUND, None;
      }
    }

    /** PATCH /details: 401, 400 for an unparseable birthdate, 404 for a missing user, else the truthy fields set and 200. */
    method PatchDetails(session: Session, body: Profile, o: Oracles) returns (status: nat)
      requires Valid()
      modifies this
      ensures Valid()
      ensures !Truthy(session.user) ==> status == UNAUTHORIZED
      ensures Truthy(session.user) && Truthy(body.birthdate) && !o.isDate(body.birthdate.value) ==> status == BAD_REQUEST
      ensures status == OK <==>
        Truthy(session.user) && (Truthy(body.birthdate) ==> o.isDate(body.birthdate.value)) && session.user.value in old(users)
      ensures (Truthy(session.user) && (Truthy(body.birthdate) ==> o.isDate(body.birthdate.value))
               && session.user.value !in old(users)) ==> status == NOT_FOUND
      ensures status != OK ==> status in {UNAUTHORIZED, BAD_REQUEST, NOT_FOUND} && users == old(users)
      ensures status == OK ==>
        var u := session.user.value;
        && users.Keys == old(users).Keys
        && (forall name :: name in users && name != u ==> users[name] == old(users)[name])
        && users[u].password == old(users)[u].password && users[u].status == old(users)[u].status
        && forall f :: ProfileGet(users[u].profile, f) ==
             if Truthy(ProfileGet(body, f)) then ProfileGet(body, f) else ProfileGet(old(users)[u].profile, f)
      ensures events == old(events) && favorites == old(favorites) && messages == old(messages)
    {
      if Auth(session.user).Halt? {
        return UNAUTHORIZED;
      }
      if Truthy(body.birthdate) && !o.isDate(body.birthdate.value) {
        return BAD_REQUEST;
      }
      var u := session.user.value;
      if u in users {
        var user := users[u];
        users := users[u := user.(profile := ProfileSet(user.profile, ProfilePayload(body)))];
        status := OK;
      } else {
        status := NOT_FOUND;
      }
    }

    /** GET /event/:id: 400 for an invalid id, 404 for a missing event, else the event with who favorited it. */
    method GetEvent(id: string, o: Oracles) returns (status: nat, found: Option<EventDetails>)
      ensures !o.isObjectId(id) ==> status == BAD_REQUEST && found == None
      ensures o.isObjectId(id) && o.toObjectId(id) !in events ==> status == NOT_FOUND && found == None
      ensures o.isObjectId(id) && o.toObjectId(id) in events ==>
        && status == OK && found.Some?
        && found.value.event == events[o.toObjectId(id)]
        && (forall u :: u in found.value.favoritedBy <==> Favorite(u, id) in favorites)
    {
      var gate := ValidateId(id, o);
      if gate.Halt? {
        return gate.status, None;
      }
      var key := o.toObjectId(id);
      var fans := FavoritedBy(favorites, id);
      if key in events {
        status, found := OK, Some(EventDetails(events[key], fans));
      } else {
        status, found := NOT_FOUND, None;
      }
    }

    /** POST /event: after `auth` and `validateEvent`, the body is stored as a new event of the session user; 201. */
    method PostEvent(session: Session, body: EventBody, o: Oracles, newId: ObjectId) returns (status: nat)
      requires Valid()
      requires newId !in events
      modifies this
      ensures Valid()
      ensures var gate := RunMiddlewares([Auth(session.user), ValidateEvent(body, o)]);
        && (gate.Halt? ==> status == gate.status && events == old(events))
        && (gate == Next ==> status == CREATED && events == old(events)[newId := Event(session.user.value, body)])
      ensures users == old(users) && favorites == old(favorites) && messages == old(messages)
    {
      var gate := RunMiddlewares([Auth(session.user), ValidateEvent(body, o)]);
      if gate.Halt? {
        return gate.status;
      }
      assert Auth(session.user) == Next;
      events := events[newId := Event(session.user.value, body)];
      status := CREATED;
    }

    /**
     * PATCH /event/:id: after `auth`, `validateId` and `validateEvent`, 404 unless the session
     * user created the event; otherwise its truthy fields are set, nothing else changes, and 200.
     */
    method PatchEvent(session: Session, id: string, body: EventBody, o: Oracles) returns (status: nat)
      requires Valid()
      modifies this
      ensures Valid()
      ensures var gate := RunMiddlewares([Auth(session.user), ValidateId(id, o), ValidateEvent(body, o)]);
        && (gate.Halt? ==> status == gate.status && events == old(events))
        && (gate == Next ==> Truthy(session.user))
        && (gate == Next && !Owns(old(events), o.toObjectId(id), session.user.value) ==>
              status == NOT_FOUND && events == old(events))
        && (gate == Next && Owns(old(events), o.toObjectId(id), session.user.value) ==>
              var key := o.toObjectId(id);
              && status == OK
              && events.Keys == old(events).Keys
              && (forall k :: k in events && k != key ==> events[k] == old(events)[k])
              && events[key].owner == old(events)[key].owner
              && forall f :: EventGet(events[key].fields, f) ==
                   if Truthy(EventGet(body, f)) then EventGet(body, f) else EventGet(old(events)[key].fields, f))
      ensures users == old(users) && favorites == old(favorites) && messages == old(messages)
    {
      var gate := RunMiddlewares([Auth(session.user), ValidateId(id, o), ValidateEvent(body, o)]);
      if gate.Halt? {
        return gate.status;
      }
      assert Auth(session.user) == Next;
      var key := o.toObjectId(id);
      if Owns(events, key, session.user.value) {
        var event := events[key];
        events := events[key := event.(fields := EventSet(event.fields, EventPayload(body)))];
        status := OK;
      } else {
        status := NOT_FOUND;
      }
    }

    /**
     * DELETE /event/:id: after `auth` and `validateId`, 404 unless the session user created the
     * event; otherwise that event alone is removed, its favorites stay, and 200.
     */
    method DeleteEvent(session: Session, id: string, o: Oracles) returns (status: nat)
      requires Valid()
      modifies this
      ensures Valid()
      ensures var gate := RunMiddlewares([Auth(session.user), ValidateId(id, o)]);
        && (gate.Halt? ==> status == gate.status && events == old(events))
        && (gate == Next ==> Truthy(session.user))
        && (gate == Next && !Owns(old(events), o.toObjectId(id), session.user.value) ==>
              status == NOT_FOUND && events == old(events))
        && (gate == Next && Owns(old(events), o.toObjectId(id), session.user.value) ==>
              status == OK && events == old(events) - {o.toObjectId(id)})
      ensures users == old(users) && favorites == old(favorites) && messages == old(messages)
    {
      var gate := RunMiddlewares([Auth(session.user), ValidateId(id, o)]);
      if gate.Halt? {
        return gate.status;
      }
      assert Auth(session.user) == Next;
      var key := o.toObjectId(id);
      if Owns(events, key, session.user.value) {
        events := events - {key};
        status := OK;
      } else {
        status := NOT_FOUND;
      }
    }

    /**
     * POST /event/:id/favorite: after `auth` and `validateId`, 404 for a missing event, 409 when
     * the session user already favorited it under this id, otherwise the pair is added and 201.
     */
    method AddFavorite(session: Session, id: string, o: Oracles) returns (status: nat)
      requires Valid()
      modifies this
      ensures Valid()
      ensures var gate := RunMiddlewares([Auth(session.user), ValidateId(id, o)]);
        && (gate.Halt? ==> status == gate.status && favorites == old(favorites))
        && (gate == Next ==> Truthy(session.user))
        && (gate == Next && o.toObjectId(id) !in events ==> status == NOT_FOUND && favorites == old(favorites))
        && (gate == Next && o.toObjectId(id) in events ==>
              var f := Favorite(session.user.value, id);
              && (f in old(favorites) ==> status == CONFLICT && favorites == old(favorites))
              && (f !in old(favorites) ==> status == CREATED && favorites == old(favorites) + [f]))
      ensures users == old(users) && events == old(events) && messages == old(messages)
    {
      var gate := RunMiddlewares([Auth(session.user), ValidateId(id, o)]);
      if gate.Halt? {
        return gate.status;
      }
      assert Auth(session.user) == Next;
      if o.toObjectId(id) !in events {
        return NOT_FOUND;
      }
      var f := Favorite(session.user.value, id);
      if f in favorites {
        status := CONFLICT;
      } else {
        favorites := favorites + [f];
        status := CREATED;
      }
    }

    /**
     * DELETE /event/:id/favorite: after `auth` and `validateId`, 404 when the session user has
     * no such favorite, otherwise exactly that pair is removed and 200.
     */
    method RemoveFavorite(session: Session, id: string, o: Oracles) returns (status: nat)
      requires Valid()
      modifies this
      ensures Valid()
      ensures var gate := RunMiddlewares([Auth(session.user), ValidateId(id, o)]);
        && (gate.Halt? ==> status == gate.status && favorites == old(favorites))
        && (gate == Next ==> Truthy(session.user))
        && (gate == Next ==>
              var f := Favorite(session.user.value, id);
              && (f !in old(favorites) ==> status == NOT_FOUND && favorites == old(favorites))
              && (f in old(favorites) ==>
                    && status == OK && f !in favorites
                    && multiset(favorites) == multiset(old(favorites)) - multiset{f}
                    && forall g :: g != f ==> (g in favorites <==> g in old(favorites))))
      ensures users == old(users) && events == old(events) && messages == old(messages)
    {
      var gate := RunMiddlewares([Auth(session.user), ValidateId(id, o)]);
      if gate.Halt? {
        return gate.status;
      }
      assert Auth(session.user) == Next;
      var f := Favorite(session.user.value, id);
      if f in favorites {
        DeleteFirstExact(favorites, f);
        favorites := DeleteFirst(favorites, f);
        status := OK;
      } else {
        status := NOT_FOUND;
      }
    }

    /** GET /history: 401 without a user, otherwise 200 and the last min(100, n) messages, oldest first. */
    method GetHistory(session: Session) returns (status: nat, history: seq<Message>)
      requires Valid()
      ensures !Truthy(session.user) ==> status == UNAUTHORIZED && history == []
      ensures Truthy(session.user) ==>
        && status == OK
        && |history| <= LIMIT
        && history == messages[|messages| - Min(LIMIT, |messages|)..]
    {
      if Auth(session.user).Halt? {
        return UNAUTHORIZED, [];
      }
      history := Snapshot(messages);
      SnapshotIsRecentTail(messages);
      status := OK;
    }

    /** Stores a chat message, stamped after every stored one, at the end of `messages`. */
    method InsertMessage(m: Message)
      requires Valid() && Before(messages, m.date)
      modifies this
      ensures Valid()
      ensures messages == old(messages) + [m]
      ensures users == old(users) && events == old(events) && favorites == old(favorites)
    {
      messages := messages + [m];
    }
  }
}
