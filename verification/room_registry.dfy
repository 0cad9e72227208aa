/** The in-memory relay: every connection joins the room named after its remote address,
    rooms are kept in a process-wide map, and membership changes are broadcast to the room. */
module RoomRegistry {
  import opened Wrappers
  import opened Relay

  /** One room member. The room's set compares members by `id` alone. */
  datatype RoomUser = RoomUser(id: string, connectionId: string)

  datatype Room = Room(name: string, users: set<RoomUser>)

  /** The registry: room name (a remote address) to room. */
  type Rooms = map<string, Room>

  /** The per-connection context the hub sees: the connection id, the authenticated user
      identifier and the remote address (either may be missing), and `room`, the entry the
      hub stores under `Context.Items["room"]`. */
  datatype Caller = Caller(connectionId: string, userIdentifier: Option<string>, remoteIp: Option<string>, room: Option<string>)

  /** A "Connections" message: sent to `recipients`, carrying the room's user set. */
  datatype Broadcast = Broadcast(recipients: set<string>, methodName: string, users: set<RoomUser>)

  /** Result of a lifecycle event: the new registry, the caller's context afterwards and
      the broadcast, if any. */
  datatype Step = Step(rooms: Rooms, caller: Caller, broadcast: Option<Broadcast>)

  predicate HasId(users: set<RoomUser>, id: string) {
    exists u :: u in users && u.id == id
  }

  /** What equality-by-id guarantees of a set: no two members share an id. */
  predicate UniqueIds(users: set<RoomUser>) {
    forall a, b :: a in users && b in users && a.id == b.id ==> a == b
  }

  /** Every room is stored under its own name and holds each id at most once. */
  predicate WellFormed(rooms: Rooms) {
    forall name :: name in rooms ==> rooms[name].name == name && UniqueIds(rooms[name].users)
  }

  /** The connection ids a broadcast to `users` is addressed to. */
  function ConnectionIds(users: set<RoomUser>): set<string> {
    set u | u in users :: u.connectionId
  }

  /** `b` is a "Connections" message carrying `users` and addressed to exactly their connections. */
  ghost predicate Announces(b: Option<Broadcast>, users: set<RoomUser>) {
    && b.Some?
    && b.value.methodName == "Connections"
    && b.value.users == users
    && forall c :: c in b.value.recipients <==> exists u :: u in users && u.connectionId == c
  }

  /** Every room other than `name` is untouched, and no room other than `name` appears or vanishes. */
  ghost predicate OthersUnchanged(rooms: Rooms, rooms': Rooms, name: string) {
    forall k :: k != name ==> (k in rooms <==> k in rooms') && (k in rooms ==> rooms'[k] == rooms[k])
  }

  /** `Context.Items["room"] as string`, with `string.IsNullOrEmpty` read as "no room". */
  function RoomOf(caller: Caller): (r: Option<string>)
    ensures r.Some? <==> caller.room.Some? && caller.room.value != ""
    ensures r.Some? ==> r.value == caller.room.value
  {
    if caller.room.Some? && caller.room.value != "" then caller.room else None
  }

  /** `ConcurrentHashSet.Add` under the id comparer: the flag says whether the set changed. */
  function Add(users: set<RoomUser>, u: RoomUser): (r: (set<RoomUser>, bool))
    ensures r.1 <==> !HasId(users, u.id)
    ensures HasId(r.0, u.id)
    ensures r.1 ==> forall v :: v in r.0 <==> v in users || v == u
    ensures !r.1 ==> r.0 == users
    ensures UniqueIds(users) ==> UniqueIds(r.0)
  {
    if HasId(users, u.id) then (users, false) else (users + {u}, true)
  }

  /** `ConcurrentHashSet.TryRemove` with a probe carrying only `id`: drops the member with that id. */
  function RemoveId(users: set<RoomUser>, id: string): (r: (set<RoomUser>, bool))
    ensures r.1 <==> HasId(users, id)
    ensures !HasId(r.0, id)
    ensures forall v :: v in r.0 <==> v in users && v.id != id
    ensures UniqueIds(users) ==> UniqueIds(r.0)
  {
    ((set v | v in users && v.id != id), HasId(users, id))
  }

  /** Adding and then removing the same id leaves the set as removing alone would. */
  lemma RemoveUndoesAdd(users: set<RoomUser>, u: RoomUser)
    ensures RemoveId(Add(users, u).0, u.id).0 == RemoveId(users, u.id).0
  {
  }

  /** `OnConnectedAsync`: get-or-add the room named after the remote address, remember it in the
      connection's context, add the caller and announce the room's users to all of them. */
  function OnConnected(rooms: Rooms, caller: Caller): (r: Step)
    ensures caller.userIdentifier.None? || caller.remoteIp.None? ==> r == Step(rooms, caller, None)
    ensures caller.userIdentifier.Some? && caller.remoteIp.Some? ==>
      var id, ip := caller.userIdentifier.value, caller.remoteIp.value;
      var before := if ip in rooms then rooms[ip].users else {};
      && r.rooms.Keys == rooms.Keys + {ip}
      && OthersUnchanged(rooms, r.rooms, ip)
      && r.rooms[ip].name == (if ip in rooms then rooms[ip].name else ip)
      && HasId(r.rooms[ip].users, id)
      && (HasId(before, id) ==> r.rooms == rooms)
      && (!HasId(before, id) ==> forall v :: v in r.rooms[ip].users <==> v in before || v == RoomUser(id, caller.connectionId))
      && r.caller == caller.(room := Some(ip))
      && Announces(r.broadcast, r.rooms[ip].users)
    ensures WellFormed(rooms) ==> WellFormed(r.rooms)
  {
    if caller.userIdentifier.None? || caller.remoteIp.None? then
      Step(rooms, caller, None)
    else
      var ip := caller.remoteIp.value;
      var room := if ip in rooms then rooms[ip] else Room(ip, {});
      var added := Add(room.users, RoomUser(caller.userIdentifier.value, caller.connectionId));
      var users := added.0;
      Step(rooms[ip := room.(users := users)], caller.(room := Some(ip)),
           Some(Broadcast(ConnectionIds(users), "Connections", users)))
  }

  /** `OnDisconnectedAsync`: remove the caller's id from the room its context recorded and
      announce the remaining users to them. The room stays in the registry even when empty. */
  function OnDisconnected(rooms: Rooms, caller: Caller): (r: Step)
    ensures r.caller == caller
    ensures caller.userIdentifier.None? || RoomOf(caller).None? || RoomOf(caller).value !in rooms ==>
      r == Step(rooms, caller, None)
    ensures caller.userIdentifier.Some? && RoomOf(caller).Some? && RoomOf(caller).value in rooms ==>
      var id, ip := caller.userIdentifier.value, RoomOf(caller).value;
      && r.rooms.Keys == rooms.Keys
      && OthersUnchanged(rooms, r.rooms, ip)
      && r.rooms[ip].name == rooms[ip].name
      && (forall v :: v in r.rooms[ip].users <==> v in rooms[ip].users && v.id != id)
      && Announces(r.broadcast, r.rooms[ip].users)
    ensures WellFormed(rooms) ==> WellFormed(r.rooms)
  {
    if caller.userIdentifier.None? || RoomOf(caller).None? || RoomOf(caller).value !in rooms then
      Step(rooms, caller, None)
    else
      var ip := RoomOf(caller).value;
      var room := rooms[ip];
      var users := RemoveId(room.users, caller.userIdentifier.value).0;
      Step(rooms[ip := room.(users := users)], caller, Some(Broadcast(ConnectionIds(users), "Connections", users)))
  }

  /** The caller's recorded room holds the member `RoomUser(userId, connectionId)`. */
  predicate Reaches(rooms: Rooms, caller: Caller, userId: string, connectionId: string) {
    RoomOf(caller).Some? && RoomOf(caller).value in rooms && RoomUser(userId, connectionId) in rooms[RoomOf(caller).value].users
  }

  /** `GetConnectionId`: look the target up among the users of the caller's own room. A
      failure carries the message of the exception the source throws. */
  function GetConnectionId(rooms: Rooms, caller: Caller, userId: string): (r: Result<string, string>)
    requires WellFormed(rooms)
    ensures r == Failure("Cannot connect without room") <==> RoomOf(caller).None?
    ensures r == Failure("Room not found") <==> RoomOf(caller).Some? && RoomOf(caller).value !in rooms
    ensures r == Failure("User not found") <==>
      RoomOf(caller).Some? && RoomOf(caller).value in rooms && !HasId(rooms[RoomOf(caller).value].users, userId)
    ensures r.Success? ==> Reaches(rooms, caller, userId, r.value)
    ensures forall c :: Reaches(rooms, caller, userId, c) ==> r == Success(c)
  {
    match RoomOf(caller)
    case None => Failure("Cannot connect without room")
    case Some(ip) =>
      if ip !in rooms then Failure("Room not found")
      else if !HasId(rooms[ip].users, userId) then Failure("User not found")
      else
        var u :| u in rooms[ip].users && u.id == userId;
        Success(u.connectionId)
  }

  /** Hub method `Connect`: forward an offer to a member of the caller's room and await the answer. */
  function Connect(rooms: Rooms, caller: Caller, userId: string, offer: Json): (r: Result<Forward, string>)
    requires WellFormed(rooms)
    ensures r.Failure? <==> GetConnectionId(rooms, caller, userId).Failure?
    ensures r.Failure? ==> r.error == GetConnectionId(rooms, caller, userId).error
    ensures r.Success? ==>
      && Reaches(rooms, caller, userId, r.value.target)
      && r.value.methodName == "Connect" && r.value.awaitsReply
      && r.value.sender == caller.userIdentifier && r.value.payload == offer
  {
    match GetConnectionId(rooms, caller, userId)
    case Failure(e) => Failure(e)
    case Success(target) => Success(Forward(target, "Connect", caller.userIdentifier, offer, true))
  }

  /** Hub method `IceCandidate`: send a candidate to a member of the caller's room, without a reply. */
  function IceCandidate(rooms: Rooms, caller: Caller, userId: string, candidate: Json): (r: Result<Forward, string>)
    requires WellFormed(rooms)
    ensures r.Failure? <==> GetConnectionId(rooms, caller, userId).Failure?
    ensures r.Failure? ==> r.error == GetConnectionId(rooms, caller, userId).error
    ensures r.Success? ==>
      && Reaches(rooms, caller, userId, r.value.target)
      && r.value.methodName == "IceCandidate" && !r.value.awaitsReply
      && r.value.sender == caller.userIdentifier && r.value.payload == candidate
  {
    match GetConnectionId(rooms, caller, userId)
    case Failure(e) => Failure(e)
    case Success(target) => Success(Forward(target, "IceCandidate", caller.userIdentifier, candidate, false))
  }

  /** The members connected through `connectionId`. */
  function UsersOn(users: set<RoomUser>, connectionId: string): set<RoomUser> {
    set u | u in users && u.connectionId == connectionId
  }

  /** `room.Users.Select(x => x.ConnectionId).ToList()`: the recipients of a broadcast, one
      entry per member, in the set's enumeration order (which the model leaves open), so each
      connection id occurs as often as there are members connected through it. */
  method ConnectionIdList(users: set<RoomUser>) returns (ids: seq<string>)
    ensures |ids| == |users|
    ensures forall c :: c in ids <==> c in ConnectionIds(users)
    ensures forall c :: multiset(ids)[c] == |UsersOn(users, c)|
  {
    ids := [];
    var rest := users;
    while rest != {}
      invariant rest <= users
      invariant |ids| + |rest| == |users|
      invariant forall c :: c in ids <==> exists u :: u in users - rest && u.connectionId == c
      invariant forall c :: multiset(ids)[c] == |UsersOn(users - rest, c)|
      decreases |rest|
    {
      var u :| u in rest;
      ghost var done := users - rest;
      ids := ids + [u.connectionId];
      rest := rest - {u};
      assert users - rest == done + {u};
      forall c
        ensures multiset(ids)[c] == |UsersOn(users - rest, c)|
      {
        if c == u.connectionId {
          assert UsersOn(users - rest, c) == UsersOn(done, c) + {u};
        } else {
          assert UsersOn(users - rest, c) == UsersOn(done, c);
        }
      }
    }
    assert users - rest == users;
  }

  /** A caller that connects with an id new to its address's room can afterwards be reached,
      at its new connection, by anyone whose context records that room. */
  lemma RouteAfterConnect(rooms: Rooms, joiner: Caller, peer: Caller)
    requires WellFormed(rooms)
    requires joiner.userIdentifier.Some? && joiner.remoteIp.Some?
    requires joiner.remoteIp.value in rooms ==> !HasId(rooms[joiner.remoteIp.value].users, joiner.userIdentifier.value)
    requires RoomOf(peer) == joiner.remoteIp
    ensures GetConnectionId(OnConnected(rooms, joiner).rooms, peer, joiner.userIdentifier.value) == Success(joiner.connectionId)
  {
  }

  /** Reconnecting with an id the room already holds changes nothing: routing still reaches
      the connection recorded first. */
  lemma ReconnectKeepsFirstConnection(rooms: Rooms, caller: Caller, peer: Caller, first: string)
    requires WellFormed(rooms)
    requires caller.userIdentifier.Some? && caller.remoteIp.Some?
    requires caller.remoteIp.value in rooms
    requires RoomUser(caller.userIdentifier.value, first) in rooms[caller.remoteIp.value].users
    requires RoomOf(peer) == caller.remoteIp
    ensures OnConnected(rooms, caller).rooms == rooms
    ensures GetConnectionId(OnConnected(rooms, caller).rooms, peer, caller.userIdentifier.value) == Success(first)
  {
  }

  /** After a disconnect, its id can no longer be reached through the room it left. */
  lemma NoRouteAfterDisconnect(rooms: Rooms, leaver: Caller, peer: Caller)
    requires WellFormed(rooms)
    requires leaver.userIdentifier.Some? && RoomOf(leaver).Some? && RoomOf(leaver).value in rooms
    requires RoomOf(peer) == RoomOf(leaver)
    ensures GetConnectionId(OnDisconnected(rooms, leaver).rooms, peer, leaver.userIdentifier.value) == Failure("User not found")
  {
  }

  /** A lifecycle event as the transport reports it, with the connection's context. */
  datatype HubEvent = Connected(caller: Caller) | Disconnected(caller: Caller)

  function Apply(rooms: Rooms, e: HubEvent): Rooms {
    match e
    case Connected(c) => OnConnected(rooms, c).rooms
    case Disconnected(c) => OnDisconnected(rooms, c).rooms
  }

  /** The registry after a sequence of lifecycle events, each applied as one atomic step. */
  function Replay(rooms: Rooms, events: seq<HubEvent>): Rooms
    decreases |events|
  {
    if |events| == 0 then rooms else Replay(Apply(rooms, events[0]), events[1..])
  }

  /** Starting from any well-formed registry (the empty one included), every sequence of
      connects and disconnects keeps each room under its own name with unique ids. */
  lemma {:induction false} ReplayKeepsWellFormed(rooms: Rooms, events: seq<HubEvent>)
    requires WellFormed(rooms)
    ensures WellFormed(Replay(rooms, events))
    decreases |events|
  {
    if |events| > 0 {
      ReplayKeepsWellFormed(Apply(rooms, events[0]), events[1..]);
    }
  }

  /** Rooms are never deleted: a room, once created, survives every later event. */
  lemma {:induction false} ReplayNeverDropsRooms(rooms: Rooms, events: seq<HubEvent>)
    ensures rooms.Keys <= Replay(rooms, events).Keys
    decreases |events|
  {
    if |events| > 0 {
      ReplayNeverDropsRooms(Apply(rooms, events[0]), events[1..]);
    }
  }
}
