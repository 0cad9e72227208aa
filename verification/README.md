# Signalling relay and log-level endpoint: a Dafny model

This project models the core of `tools-server`, a WebRTC signalling relay. Clients open a
SignalR connection to the relay. They learn which other users share their network address,
and they pass opaque offers and ICE candidates to each other through the hub, addressed by
user id. The repository holds two versions of the hub, plus a small HTTP endpoint that
changes logging levels at run time. All three are modelled as pure functions over immutable
state. Each hub event is one atomic step that returns the new state and the messages sent.

- `RoomRegistry` (`tools-server/Controllers/TransferHub.cs`) is the in-memory hub. Rooms
  live in a map from room name to `Room`. Each connection joins the room named after its
  remote address. A room's user set compares `RoomUser`s by `Id` only. The model keeps this
  as the invariant `UniqueIds` and proves that every event preserves it. `Context.Items["room"]`
  is the `room` field of the `Caller` context.
- `UserService` (`tools-server/Services/UserService.cs`) is the user table. The table is a
  map from `Id` to `User`, and `Keyed` says that each record is stored under its own id.
- `UserHub` (`tools-server/Services/TransferHub.cs`) is the hub built on that table. Each
  exception it throws is represented by its message. A `Step` keeps the table as it stands when
  the handler stops, because `DeleteAsync` has already saved its change when the missing
  address is reported.
- `LogLevelConfiguration` (`tools-server/LogLevelConfiguration.cs`) models the `/LogLevel`
  handler, the source's named setters, and the provider. The provider counts its reloads.
  A query parameter is read the way ASP.NET's `StringValues.ToString()` reads it: no value
  reads as the empty string, and several values are joined with commas after empty entries
  are dropped.
- `Ascii` provides the lowercasing, `Relay` the opaque payload type and the point-to-point
  `Forward` message, and `Wrappers` the `Option`/`Result` types.

Two GetConnectionId lookups work differently:

- In the in-memory hub, `GetConnectionId` uses `FirstOrDefault` over the room's set. The
  model picks the member with the requested id. It requires `WellFormed` so that this member
  is unique. `ReplayKeepsWellFormed` shows that every registry built from the empty one by
  connects and disconnects satisfies `WellFormed`.
- In the database-backed hub, routing never fails. An unknown target yields the empty
  connection id, and the message is addressed to it.

Facts about the code that the model keeps:

- A connection joins only the room named after its address. There is no other way to join
  or leave a room.
- Rooms have no passwords.
- Rooms are never deleted, even when empty.
- When an unknown user disconnects, the database-backed hub throws "User not found".
- The database-backed hub does not refuse routing to an unknown user. It sends to the empty
  connection id.
- The in-memory hub refuses routing to anyone outside the caller's own room.

In the database-backed hub, `CreateAsync` keeps the stored address of a known user. A user
who reconnects from a different address is therefore missing from the "Users" list sent to
the new address's group (`UserHub.ConnectListsCaller`).

## Model

| member | source | states |
|---|---|---|
| RoomRegistry.Add | tools-server/Controllers/TransferHub.cs:122-145 | adding under id equality reports success exactly when no entry has that id; afterwards the id is present, a refused add leaves the set as it was, and no two entries ever share an id |
| RoomRegistry.RemoveId | tools-server/Controllers/TransferHub.cs:66-73 | removal with an id-only probe drops exactly the entries with that id, reports whether one existed, and keeps ids unique |
| RoomRegistry.RemoveUndoesAdd | tools-server/Controllers/TransferHub.cs:32-66 | removing an id after adding it gives the same set as removing it alone |
| RoomRegistry.OnConnected | tools-server/Controllers/TransferHub.cs:16-43 | with no identifier or no address nothing changes and nothing is sent; otherwise the room named after the address exists, holds the caller's id, an id already present leaves the registry unchanged (its first connection kept), a new id adds exactly the caller, no other room changes, the context records the room, and "Connections" goes to exactly the connections of the room's new user set and carries that set |
| RoomRegistry.OnDisconnected | tools-server/Controllers/TransferHub.cs:45-77 | with no identifier, no recorded room or a missing room nothing changes; otherwise only entries with the caller's id leave that room, the room itself stays even when empty, no other room changes, and the remaining users' connections receive the remaining set |
| RoomRegistry.GetConnectionId | tools-server/Controllers/TransferHub.cs:93-113 | fails with "Cannot connect without room", "Room not found" or "User not found" in exactly the three cases the source checks in that order; otherwise returns the connection of the member with that id in the caller's own room, so it never reaches another room |
| RoomRegistry.Connect | tools-server/Controllers/TransferHub.cs:79-84 | fails exactly when the room-scoped lookup fails; otherwise invokes "Connect" on a member of the caller's room, awaiting a reply, with the offer unchanged and tagged with the caller's identifier |
| RoomRegistry.IceCandidate | tools-server/Controllers/TransferHub.cs:86-91 | same routing as Connect, but a fire-and-forget "IceCandidate" send of the unchanged candidate |
| RoomRegistry.ConnectionIdList | tools-server/Controllers/TransferHub.cs:41 | the recipient list has one entry per room user: it contains exactly the users' connection ids, each as often as there are users connected through it |
| RoomRegistry.RouteAfterConnect | tools-server/Controllers/TransferHub.cs:30-112 | after a connect with an id new to its room, anyone whose context records that room reaches the new connection |
| RoomRegistry.ReconnectKeepsFirstConnection | tools-server/Controllers/TransferHub.cs:32-39 | reconnecting with an id the room already holds leaves the registry unchanged, and routing still reaches the first connection |
| RoomRegistry.NoRouteAfterDisconnect | tools-server/Controllers/TransferHub.cs:66-110 | after a disconnect, routing to the leaver's id through that room fails with "User not found" |
| RoomRegistry.ReplayKeepsWellFormed | tools-server/Controllers/TransferHub.cs:14-76 | every sequence of connects and disconnects keeps each room under its own name with unique ids |
| RoomRegistry.ReplayNeverDropsRooms | tools-server/Controllers/TransferHub.cs:14-76 | no sequence of events ever removes a room from the registry |
| UserService.Create | tools-server/Services/UserService.cs:12-31 | an unknown id gets exactly the record (id, connection, ip); a known id gets only its connection overwritten, its address kept; every other record is unchanged; exactly one record with the id exists afterwards |
| UserService.Delete | tools-server/Services/UserService.cs:33-43 | an unknown id fails with "User not found"; a known id loses its record and nothing else changes |
| UserService.GetConnectionId | tools-server/Services/UserService.cs:45-48 | returns the connection of the record whose `Id` is the given id, and the empty string when no record has that id |
| UserService.GetLanUsers | tools-server/Services/UserService.cs:50-53 | the list holds exactly the records whose address is the given one, each once |
| UserService.LanUsersMatchesList | tools-server/Services/UserService.cs:52 | the set of an address's users equals the list GetLanUsers returns |
| UserService.LookupAfterCreate | tools-server/Services/UserService.cs:12-48 | looking an id up after creating it returns the connection just stored |
| UserService.LookupAfterDelete | tools-server/Services/UserService.cs:33-48 | looking an id up after deleting it returns the empty string |
| UserService.DeleteUndoesCreate | tools-server/Services/UserService.cs:12-43 | deleting a newly created id restores the table; for a known id it equals deleting straight away |
| UserService.CreatedUserOnLan | tools-server/Services/UserService.cs:25-52 | after creating, the user is on an address's list exactly when its stored address (the old one for a known id) is that address |
| UserHub.OnConnected | tools-server/Services/TransferHub.cs:14-35 | a missing identifier or address fails with its message and leaves the table alone; otherwise the user is upserted with its new connection and "Users" goes to the address's group listing exactly the table's users on that address |
| UserHub.OnDisconnected | tools-server/Services/TransferHub.cs:37-56 | a missing identifier or an unknown user fails with the table unchanged; otherwise the record is deleted and nothing else changes, after which a missing address fails without a send, and a present one sends "Users" to the address's group |
| UserHub.Connect | tools-server/Services/TransferHub.cs:58-63 | invokes "Connect" on the target's stored connection, or the empty id for an unknown target, with the offer unchanged and the caller's identifier; the table is not an output |
| UserHub.IceCandidate | tools-server/Services/TransferHub.cs:65-70 | same routing as Connect, as a send without reply |
| UserHub.RouteAfterConnect | tools-server/Services/TransferHub.cs:28-63 | after a successful connect, any caller's offer to that user goes to the new connection |
| UserHub.NoRouteAfterDisconnect | tools-server/Services/TransferHub.cs:45-63 | after a disconnect, offers to that user go to the empty connection id |
| UserHub.ConnectListsCaller | tools-server/Services/TransferHub.cs:28-34 | the connecting user is on the list sent to its group exactly when it is new or its stored address equals the current one |
| UserHub.DisconnectUndoesFirstConnect | tools-server/Services/TransferHub.cs:14-56 | a first connect followed by its disconnect leaves the table as it was, without error |
| UserHub.ReplayKeepsKeyed | tools-server/Services/TransferHub.cs:14-56 | every sequence of connects and disconnects keeps at most one record per user id |
| LogLevelConfiguration.ParseLevelInvertsName | tools-server/LogLevelConfiguration.cs:88-110 | the switch accepts a string exactly when it is the lower-cased name of a level, and yields that level |
| LogLevelConfiguration.ProviderSet | tools-server/LogLevelConfiguration.cs:56-61 | the key holds the new value, every other entry is kept, and exactly one reload is signalled |
| LogLevelConfiguration.SetLevel | tools-server/LogLevelConfiguration.cs:48-51 | the level's name is written under "Logging:LogLevel:" followed by the key, through the provider |
| LogLevelConfiguration.NamedSettersWriteOwnLevel | tools-server/LogLevelConfiguration.cs:13-46 | each of the seven named setters writes its own level's name for the key |
| LogLevelConfiguration.QueryValue | tools-server/LogLevelConfiguration.cs:79-80 | a parameter reads as empty exactly when every value given for it (possibly none) is empty; a single value reads as itself |
| LogLevelConfiguration.QueryValueJoinsNonEmpty | tools-server/LogLevelConfiguration.cs:79-80 | reading a parameter equals the plain comma join of its non-empty values |
| LogLevelConfiguration.SingleValueAmongEmpties | tools-server/LogLevelConfiguration.cs:79-80 | a parameter whose values are all empty except one reads as that one value |
| LogLevelConfiguration.RepeatedEmptyKeyRefused | tools-server/LogLevelConfiguration.cs:79-86 | a key given twice, both times empty, reads as empty, so the request gets 400 "Bad Request" and writes nothing |
| LogLevelConfiguration.EmptyLevelEntrySkipped | tools-server/LogLevelConfiguration.cs:79-118 | a level given as an empty entry plus "Warning" reads as "warning", so the request gets 200 "OK" and writes Warning under the key |
| LogLevelConfiguration.HandleLogLevel | tools-server/LogLevelConfiguration.cs:77-119 | status 200 "OK" exactly when the lower-cased key is non-empty and the lower-cased level names a level, with that level's canonical name written under the lower-cased key; otherwise 400 "Bad Request" and the provider untouched |
| LogLevelConfiguration.MissingParameterRefused | tools-server/LogLevelConfiguration.cs:81-86 | an empty or missing key or level gives 400 "Bad Request" and writes nothing |
| LogLevelConfiguration.LevelMatchedCaseInsensitively | tools-server/LogLevelConfiguration.cs:80-110 | a level spelled in any letter case is accepted and written in its canonical spelling under the lower-cased key |

## Left out

- SignalR transport: actual delivery, the `ConnectionAborted` token, and `Groups.AddToGroupAsync` group membership. Sends are output values, and a group send names its group.
- The answer that `Connect` awaits through `InvokeAsync`: it comes from another client. The model stops at the forwarded request.
- Logging: the log calls, including the "already connected" and "already disconnected" messages, have no effect on state.
- Concurrency of `ConcurrentDictionary`, `ConcurrentHashSet` and the database: every event is one atomic step.
- Entity Framework, SQLite, `SaveChangesAsync` and `ToolsDbContext`: the table is a map.
- `Program.cs` bootstrap and `SimpleAuthenticationHandler`: the user identifier and remote address are `Option<string>` inputs.
- JSON payload contents: `Json` is opaque and never inspected.
- UserHub.OnDisconnected: the group message carries `PendingQuery`, because the handler passes an un-awaited query task; what that task serialises to is not modelled.
- `ToLower` culture rules: lowercasing covers ASCII `A`–`Z` only.
- Case-insensitive matching of query parameter names, and of keys in the configuration provider's dictionary: keys are exact strings. The handler only ever writes lower-cased keys under one fixed prefix.
- Writing the response body to the network: the response is a status and a body value.
