/** The user table behind the database-backed hub: one record per user id, holding the
    user's current connection and the address it first connected from. */
module UserService {
  import opened Wrappers

  datatype User = User(id: string, connectionId: string, ip: string)

  /** The `Users` table, indexed by its primary key `Id`. */
  type Table = map<string, User>

  /** Each record is stored under its own id, as the primary key guarantees. */
  predicate Keyed(t: Table) {
    forall k :: k in t ==> t[k].id == k
  }

  /** The records whose `Id` is `id`. */
  function RecordsWithId(t: Table, id: string): set<User> {
    set k | k in t && t[k].id == id :: t[k]
  }

  /** `CreateAsync`: insert a new record, or, for a known id, overwrite only its connection. */
  function Create(t: Table, id: string, connectionId: string, ip: string): (r: Table)
    ensures r.Keys == t.Keys + {id}
    ensures id !in t ==> r[id] == User(id, connectionId, ip)
    ensures id in t ==> r[id].id == t[id].id && r[id].connectionId == connectionId && r[id].ip == t[id].ip
    ensures forall k :: k in t && k != id ==> r[k] == t[k]
    ensures Keyed(t) ==> Keyed(r) && RecordsWithId(r, id) == {r[id]}
  {
    if id in t then t[id := t[id].(connectionId := connectionId)] else t[id := User(id, connectionId, ip)]
  }

  /** `DeleteAsync`: remove the record with this id, or fail with "User not found". */
  function Delete(t: Table, id: string): (r: Result<Table, string>)
    ensures r.Failure? <==> id !in t
    ensures r.Failure? ==> r.error == "User not found"
    ensures r.Success? ==> r.value.Keys == t.Keys - {id} && forall k :: k in r.value ==> r.value[k] == t[k]
  {
    if id in t then Success(t - {id}) else Failure("User not found")
  }

  /** `GetConnectionId`: the connection of the record whose `Id` is `id`, or the empty
      string when no record has that id. */
  function GetConnectionId(t: Table, id: string): (r: string)
    ensures Keyed(t) ==> forall u :: u in RecordsWithId(t, id) ==> r == u.connectionId
    ensures Keyed(t) && RecordsWithId(t, id) == {} ==> r == ""
  {
    if id in t then t[id].connectionId else ""
  }

  /** `GetLanUsersAsync` as a set: the records whose `Ip` is `ip`. */
  function LanUsers(t: Table, ip: string): set<User> {
    set k | k in t && t[k].ip == ip :: t[k]
  }

  /** `GetLanUsersAsync`: list the records on one address, each once. */
  method GetLanUsers(t: Table, ip: string) returns (users: seq<User>)
    ensures forall u :: u in users <==> u in t.Values && u.ip == ip
    ensures Keyed(t) ==> forall i, j :: 0 <= i < j < |users| ==> users[i] != users[j]
  {
    users := [];
    var rest := t.Keys;
    while rest != {}
      invariant rest <= t.Keys
      invariant forall u :: u in users <==> exists k :: k in t.Keys - rest && t[k] == u && u.ip == ip
      invariant Keyed(t) ==> forall i :: 0 <= i < |users| ==> users[i].id in t.Keys - rest
      invariant Keyed(t) ==> forall i, j :: 0 <= i < j < |users| ==> users[i] != users[j]
      decreases |rest|
    {
      var k :| k in rest;
      if t[k].ip == ip {
        users := users + [t[k]];
      }
      rest := rest - {k};
    }
  }

  /** The set form and the list form of `GetLanUsersAsync` agree. */
  lemma LanUsersMatchesList(t: Table, ip: string, users: seq<User>)
    requires forall u :: u in users <==> u in t.Values && u.ip == ip
    ensures forall u :: u in LanUsers(t, ip) <==> u in users
  {
  }

  /** Looking a user up right after `CreateAsync` yields the connection just stored. */
  lemma LookupAfterCreate(t: Table, id: string, connectionId: string, ip: string)
    ensures GetConnectionId(Create(t, id, connectionId, ip), id) == connectionId
  {
  }

  /** Looking a user up right after a successful `DeleteAsync` yields the empty string. */
  lemma LookupAfterDelete(t: Table, id: string)
    requires id in t
    ensures Delete(t, id).Success? && GetConnectionId(Delete(t, id).value, id) == ""
  {
  }

  /** Deleting what `CreateAsync` inserted for a new id restores the table; for a known id
      it has the same effect as deleting straight away. */
  lemma DeleteUndoesCreate(t: Table, id: string, connectionId: string, ip: string)
    ensures id !in t ==> Delete(Create(t, id, connectionId, ip), id) == Success(t)
    ensures id in t ==> Delete(Create(t, id, connectionId, ip), id) == Delete(t, id)
  {
    var r := Create(t, id, connectionId, ip);
    assert r - {id} == t - {id};
    if id !in t {
      assert t - {id} == t;
    }
  }

  /** A record belongs to the LAN list of `ip` exactly when its stored address is `ip`;
      `CreateAsync` therefore places a user on the list of the address it FIRST connected from. */
  lemma CreatedUserOnLan(t: Table, id: string, connectionId: string, ip: string, lan: string)
    requires Keyed(t)
    ensures var r := Create(t, id, connectionId, ip);
      r[id] in LanUsers(r, lan) <==> (if id in t then t[id].ip else ip) == lan
  {
  }
}
