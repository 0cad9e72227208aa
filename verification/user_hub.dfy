/** The database-backed relay: the hub keeps its users in the `UserService` table, groups
    connections by remote address, and routes signalling messages by user id alone. */
module UserHub {
  import opened Wrappers
  import opened Relay
  import opened UserService

  /** What the hub reads from its connection context: the connection id, the authenticated
      user identifier and the remote address, the last two possibly missing. */
  datatype Caller = Caller(connectionId: string, userIdentifier: Option<string>, remoteIp: Option<string>)

  /** The body of a "Users" message: the address's users, or, on disconnect, the un-awaited
      query task the handler passes instead (its serialised shape is not modelled). */
  datatype Payload = UserList(users: set<User>) | PendingQuery

  /** A message to every connection of the SignalR group `group`. */
  datatype GroupSend = GroupSend(group: string, methodName: string, payload: Payload)

  /** Result of a lifecycle event: the table afterwards (changes are saved even when a later
      step throws), the group message sent, if any, and the message of the exception raised,
      if any. */
  datatype Step = Step(table: Table, send: Option<GroupSend>, error: Option<string>)

  /** `OnConnectedAsync`: require an identifier and an address, upsert the user, then send the
      users on that address to the address's group. */
  function OnConnected(t: Table, caller: Caller): (r: Step)
    ensures caller.userIdentifier.None? ==> r == Step(t, None, Some("Cannot connect without user identifier"))
    ensures caller.userIdentifier.Some? && caller.remoteIp.None? ==> r == Step(t, None, Some("Cannot connect without remote ip"))
    ensures caller.userIdentifier.Some? && caller.remoteIp.Some? ==>
      var id, ip := caller.userIdentifier.value, caller.remoteIp.value;
      && r.error.None?
      && r.table.Keys == t.Keys + {id}
      && (forall k :: k in t && k != id ==> r.table[k] == t[k])
      && r.table[id].connectionId == caller.connectionId
      && r.table[id].ip == (if id in t then t[id].ip else ip)
      && r.send.Some? && r.send.value.group == ip && r.send.value.methodName == "Users"
      && r.send.value.payload.UserList?
      && (forall u :: u in r.send.value.payload.users <==> u in r.table.Values && u.ip == ip)
    ensures Keyed(t) ==> Keyed(r.table)
  {
    if caller.userIdentifier.None? then Step(t, None, Some("Cannot connect without user identifier"))
    else if caller.remoteIp.None? then Step(t, None, Some("Cannot connect without remote ip"))
    else
      var ip := caller.remoteIp.value;
      var t' := Create(t, caller.userIdentifier.value, caller.connectionId, ip);
      Step(t', Some(GroupSend(ip, "Users", UserList(LanUsers(t', ip)))), None)
  }

  /** `OnDisconnectedAsync`: require an identifier, delete the user (which throws for an unknown
      one), then require an address and notify its group. The deletion is already saved when
      the missing address is reported. */
  function OnDisconnected(t: Table, caller: Caller): (r: Step)
    ensures caller.userIdentifier.None? ==> r == Step(t, None, Some("Cannot connect without user identifier"))
    ensures caller.userIdentifier.Some? && caller.userIdentifier.value !in t ==> r == Step(t, None, Some("User not found"))
    ensures caller.userIdentifier.Some? && caller.userIdentifier.value in t ==>
      var id := caller.userIdentifier.value;
      && r.table.Keys == t.Keys - {id}
      && (forall k :: k in r.table ==> r.table[k] == t[k])
      && (caller.remoteIp.None? ==> r.send.None? && r.error == Some("Cannot connect without remote ip"))
      && (caller.remoteIp.Some? ==> r.error.None? && r.send == Some(GroupSend(caller.remoteIp.value, "Users", PendingQuery)))
    ensures Keyed(t) ==> Keyed(r.table)
  {
    if caller.userIdentifier.None? then Step(t, None, Some("Cannot connect without user identifier"))
    else
      match Delete(t, caller.userIdentifier.value)
      case Failure(e) => Step(t, None, Some(e))
      case Success(t') =>
        if caller.remoteIp.None? then Step(t', None, Some("Cannot connect without remote ip"))
        else Step(t', Some(GroupSend(caller.remoteIp.value, "Users", PendingQuery)), None)
  }

  /** Hub method `Connect`: forward an offer to the target's stored connection (the empty
      connection id when the target is unknown) and await the answer. */
  function Connect(t: Table, caller: Caller, userId: string, offer: Json): (r: Forward)
    ensures userId in t ==> r.target == t[userId].connectionId
    ensures userId !in t ==> r.target == ""
    ensures r.methodName == "Connect" && r.awaitsReply
    ensures r.sender == caller.userIdentifier && r.payload == offer
  {
    Forward(GetConnectionId(t, userId), "Connect", caller.userIdentifier, offer, true)
  }

  /** Hub method `IceCandidate`: send a candidate to the target's stored connection, no reply. */
  function IceCandidate(t: Table, caller: Caller, userId: string, candidate: Json): (r: Forward)
    ensures userId in t ==> r.target == t[userId].connectionId
    ensures userId !in t ==> r.target == ""
    ensures r.methodName == "IceCandidate" && !r.awaitsReply
    ensures r.sender == caller.userIdentifier && r.payload == candidate
  {
    Forward(GetConnectionId(t, userId), "IceCandidate", caller.userIdentifier, candidate, false)
  }

  /** After a successful connect, any caller's offer to that user reaches the new connection. */
  lemma RouteAfterConnect(t: Table, joiner: Caller, sender: Caller, offer: Json)
    requires joiner.userIdentifier.Some? && joiner.remoteIp.Some?
    ensures Connect(OnConnected(t, joiner).table, sender, joiner.userIdentifier.value, offer).target == joiner.connectionId
  {
  }

  /** After a disconnect, offers to that user go to the empty connection id. */
  lemma NoRouteAfterDisconnect(t: Table, leaver: Caller, sender: Caller, offer: Json)
    requires leaver.userIdentifier.Some?
    ensures Connect(OnDisconnected(t, leaver).table, sender, leaver.userIdentifier.value, offer).target == ""
  {
  }

  /** The connecting user appears in the list sent to its address's group exactly when the
      address stored for it is that address: always for a new user, but not for a known user
      reconnecting from a different address, whose stored address is kept. */
  lemma ConnectListsCaller(t: Table, caller: Caller)
    requires Keyed(t)
    requires caller.userIdentifier.Some? && caller.remoteIp.Some?
    ensures var id, ip := caller.userIdentifier.value, caller.remoteIp.value;
      var r := OnConnected(t, caller);
      r.table[id] in r.send.value.payload.users <==> (id !in t || t[id].ip == ip)
  {
  }

  /** A first connect followed by its disconnect leaves the table as it was. */
  lemma DisconnectUndoesFirstConnect(t: Table, caller: Caller)
    requires caller.userIdentifier.Some? && caller.remoteIp.Some?
    requires caller.userIdentifier.value !in t
    ensures OnDisconnected(OnConnected(t, caller).table, caller).table == t
    ensures OnDisconnected(OnConnected(t, caller).table, caller).error.None?
  {
  }

  /** A lifecycle event as the transport reports it. */
  datatype HubEvent = Connected(caller: Caller) | Disconnected(caller: Caller)

  function Apply(t: Table, e: HubEvent): Table {
    match e
    case Connected(c) => OnConnected(t, c).table
    case Disconnected(c) => OnDisconnected(t, c).table
  }

  /** The table after a sequence of lifecycle events, each applied as one atomic step. */
  function Replay(t: Table, events: seq<HubEvent>): Table
    decreases |events|
  {
    if |events| == 0 then t else Replay(Apply(t, events[0]), events[1..])
  }

  /** Every sequence of connects and disconnects keeps each record under its own id,
      so there is never more than one record per user. */
  lemma {:induction false} ReplayKeepsKeyed(t: Table, events: seq<HubEvent>)
    requires Keyed(t)
    ensures Keyed(Replay(t, events))
    decreases |events|
  {
    if |events| > 0 {
      ReplayKeepsKeyed(Apply(t, events[0]), events[1..]);
    }
  }
}
