/** The team and user records the handlers read and write, and the store
    behind `Srv.Store`. Each store call is modelled as a synchronous call
    that answers with a value or an error: a store that is offline fails
    every call, and a lookup that matches nothing fails with a not-found
    error. */
module Store {

  import opened Errors

  /** The fields of `model.Team` that the team handlers read or set. */
  datatype Team = Team(id: string, name: string, urlId: string, email: string, allowValet: bool)

  /** The fields of `model.User` that the team handlers read or set. */
  datatype User = User(
    id: string, teamId: string, email: string, username: string, fullName: string,
    roles: string, password: string, emailVerified: bool)

  /** The message the user store gives when an e-mail has no account on a team. */
  const AccountNotFound := "We couldn't find the existing account"

  const Unavailable := AppError("Store", "The store is unavailable", "", Default)

  function TeamNotFound(key: string): AppError {
    AppError("SqlTeamStore", "We couldn't find the existing team", key, Default)
  }

  function UserNotFound(key: string): AppError {
    AppError("SqlUserStore", AccountNotFound, key, Default)
  }

  /** What the store holds, in store order, and whether it answers at all. */
  datatype Db = Db(teams: seq<Team>, users: seq<User>, online: bool)

  /** No two stored teams share an id or a URL id. */
  predicate Valid(db: Db) {
    forall i, j :: 0 <= i < j < |db.teams| ==>
      db.teams[i].id != db.teams[j].id && db.teams[i].urlId != db.teams[j].urlId
  }

  const DuplicateTeamId := AppError("SqlTeamStore.Save", "A team with that id already exists", "", Default)

  const DuplicateUrlId := AppError("SqlTeamStore.Save", "A team with that URL already exists", "", Default)

  /** The first position of `s` whose element satisfies `p`. */
  function FirstIndex<T>(s: seq<T>, p: T -> bool): (r: Option<nat>)
    ensures r.Some? ==> r.value < |s| && p(s[r.value])
    ensures r.Some? ==> forall j :: 0 <= j < r.value ==> !p(s[j])
    ensures r.None? ==> forall j :: 0 <= j < |s| ==> !p(s[j])
  {
    if s == [] then None
    else if p(s[0]) then Some(0)
    else match FirstIndex(s[1..], p)
      case None => None
      case Some(k) => Some(k + 1)
  }

  /** `Team().Get(id)`. */
  function GetTeam(db: Db, id: string): (r: Result<Team>)
    ensures r.Ok? <==> db.online && exists k :: 0 <= k < |db.teams| && db.teams[k].id == id
    ensures r.Ok? ==> r.value in db.teams && r.value.id == id
  {
    if !db.online then Err(Unavailable)
    else match FirstIndex(db.teams, (t: Team) => t.id == id)
      case None => Err(TeamNotFound("id=" + id))
      case Some(k) => Ok(db.teams[k])
  }

  /** `Team().GetByURLId(urlId)`. */
  function GetTeamByURLId(db: Db, urlId: string): (r: Result<Team>)
    ensures r.Ok? <==> db.online && exists k :: 0 <= k < |db.teams| && db.teams[k].urlId == urlId
    ensures r.Ok? ==> r.value in db.teams && r.value.urlId == urlId
  {
    if !db.online then Err(Unavailable)
    else match FirstIndex(db.teams, (t: Team) => t.urlId == urlId)
      case None => Err(TeamNotFound("urlId=" + urlId))
      case Some(k) => Ok(db.teams[k])
  }

  /** The teams registered under `email`, in store order. */
  function TeamsWithEmail(teams: seq<Team>, email: string): (r: seq<Team>)
    ensures forall t :: t in r <==> t in teams && t.email == email
    ensures |r| <= |teams|
  {
    if teams == [] then []
    else
      var rest := TeamsWithEmail(teams[..|teams| - 1], email);
      var last := teams[|teams| - 1];
      assert teams == teams[..|teams| - 1] + [last];
      if last.email == email then rest + [last] else rest
  }

  /** A single team is kept exactly when it is registered under `email`. */
  lemma TeamsWithEmailOne(t: Team, email: string)
    ensures TeamsWithEmail([t], email) == if t.email == email then [t] else []
  {
    assert [t][..0] == [];
  }

  /** The filter distributes over concatenation: the teams keep their store
      order and their repetitions. */
  lemma {:induction false} TeamsWithEmailAppend(a: seq<Team>, b: seq<Team>, email: string)
    ensures TeamsWithEmail(a + b, email) == TeamsWithEmail(a, email) + TeamsWithEmail(b, email)
    decreases |b|
  {
    if b == [] {
      assert a + b == a;
    } else {
      var init := b[..|b| - 1];
      assert (a + b)[..|a + b| - 1] == a + init;
      assert (a + b)[|a + b| - 1] == b[|b| - 1];
      TeamsWithEmailAppend(a, init, email);
    }
  }

  /** Why `Team().Save` would refuse `team` under the id `newId`: an
      unavailable store, or an id or URL id some stored team already has. */
  function SaveRefusal(db: Db, team: Team, newId: string): (e: Option<AppError>)
    ensures e.None? <==>
      db.online && forall k :: 0 <= k < |db.teams| ==> db.teams[k].id != newId && db.teams[k].urlId != team.urlId
    ensures !db.online ==> e == Some(Unavailable)
  {
    if !db.online then Some(Unavailable)
    else if FirstIndex(db.teams, (t: Team) => t.id == newId).Some? then Some(DuplicateTeamId)
    else if FirstIndex(db.teams, (t: Team) => t.urlId == team.urlId).Some? then Some(DuplicateUrlId)
    else None
  }

  /** A save the store accepts keeps it valid, and the new team is then what
      both lookups find under its id and its URL id. */
  lemma SavedTeamFound(db: Db, team: Team, newId: string)
    requires Valid(db) && SaveRefusal(db, team, newId).None?
    ensures var after := db.(teams := db.teams + [team.(id := newId)]);
      Valid(after) && GetTeam(after, newId) == Ok(team.(id := newId))
      && GetTeamByURLId(after, team.urlId) == Ok(team.(id := newId))
  {
    var saved := team.(id := newId);
    var after := db.(teams := db.teams + [saved]);
    assert after.teams[|db.teams|] == saved;
    assert forall k :: 0 <= k < |after.teams| && after.teams[k].id == newId ==> k == |db.teams|;
    assert forall k :: 0 <= k < |after.teams| && after.teams[k].urlId == team.urlId ==> k == |db.teams|;
  }

  /** Renaming teams changes no id and no URL id, so it keeps the store valid. */
  lemma RenamedKeepsValid(db: Db, id: string, name: string)
    requires Valid(db)
    ensures Valid(db.(teams := Renamed(db.teams, id, name)))
  {
    var after := Renamed(db.teams, id, name);
    assert forall k :: 0 <= k < |after| ==> after[k].id == db.teams[k].id && after[k].urlId == db.teams[k].urlId;
  }

  /** Overwriting a stored team with a record of the same id and URL id keeps
      the store valid. */
  lemma ReplacedKeepsValid(db: Db, team: Team, k: nat)
    requires Valid(db) && k < |db.teams|
    requires db.teams[k].id == team.id && db.teams[k].urlId == team.urlId
    ensures Valid(db.(teams := Replaced(db.teams, team)))
  {
    var after := Replaced(db.teams, team);
    assert forall j :: 0 <= j < |after| && db.teams[j].id == team.id ==> j == k;
    assert forall j :: 0 <= j < |after| ==> after[j].id == db.teams[j].id && after[j].urlId == db.teams[j].urlId;
  }

  /** `Team().GetTeamsForEmail(email)`. */
  function GetTeamsForEmail(db: Db, email: string): (r: Result<seq<Team>>)
    ensures r.Ok? <==> db.online
    ensures r.Ok? ==> r.value == TeamsWithEmail(db.teams, email)
  {
    if !db.online then Err(Unavailable) else Ok(TeamsWithEmail(db.teams, email))
  }

  /** `User().Get(id)`. */
  function GetUser(db: Db, id: string): (r: Result<User>)
    ensures r.Ok? <==> db.online && exists k :: 0 <= k < |db.users| && db.users[k].id == id
    ensures r.Ok? ==> r.value in db.users && r.value.id == id
  {
    if !db.online then Err(Unavailable)
    else match FirstIndex(db.users, (u: User) => u.id == id)
      case None => Err(AppError("SqlUserStore", "We couldn't find the existing user", "id=" + id, Default))
      case Some(k) => Ok(db.users[k])
  }

  /** `User().GetByEmail(teamId, email)`: a miss on a reachable store is the
      "couldn't find the existing account" error. */
  function GetUserByEmail(db: Db, teamId: string, email: string): (r: Result<User>)
    ensures r.Ok? <==> db.online && exists k :: 0 <= k < |db.users| && db.users[k].teamId == teamId && db.users[k].email == email
    ensures r.Err? && r.error.message == AccountNotFound <==>
      db.online && forall k :: 0 <= k < |db.users| ==> !(db.users[k].teamId == teamId && db.users[k].email == email)
  {
    if !db.online then Err(Unavailable)
    else match FirstIndex(db.users, (u: User) => u.teamId == teamId && u.email == email)
      case None => Err(UserNotFound("email=" + email))
      case Some(k) => Ok(db.users[k])
  }

  /** Every team with id `id` renamed to `name`, the others untouched. */
  function Renamed(teams: seq<Team>, id: string, name: string): (r: seq<Team>)
    ensures |r| == |teams|
    ensures forall k :: 0 <= k < |teams| && teams[k].id != id ==> r[k] == teams[k]
    ensures forall k :: 0 <= k < |teams| && teams[k].id == id ==> r[k] == teams[k].(name := name)
  {
    seq(|teams|, k requires 0 <= k < |teams| => if teams[k].id == id then teams[k].(name := name) else teams[k])
  }

  /** Every team with `team`'s id replaced by `team`, the others untouched. */
  function Replaced(teams: seq<Team>, team: Team): (r: seq<Team>)
    ensures |r| == |teams|
    ensures forall k :: 0 <= k < |teams| && teams[k].id != team.id ==> r[k] == teams[k]
    ensures forall k :: 0 <= k < |teams| && teams[k].id == team.id ==> r[k] == team
  {
    seq(|teams|, k requires 0 <= k < |teams| => if teams[k].id == team.id then team else teams[k])
  }

  class Store {
    var db: Db

    constructor (db: Db)
      ensures this.db == db
    {
      this.db := db;
    }

    /** `Team().Save(team)`: the store gives the record the id `newId` and
        appends it, unless it refuses the save. */
    method SaveTeam(team: Team, newId: string) returns (r: Result<Team>)
      modifies this
      ensures SaveRefusal(old(db), team, newId).None? ==>
        r == Ok(team.(id := newId)) && db == old(db).(teams := old(db).teams + [team.(id := newId)])
      ensures SaveRefusal(old(db), team, newId).Some? ==>
        r == Err(SaveRefusal(old(db), team, newId).value) && db == old(db)
      ensures Valid(old(db)) ==> Valid(db)
    {
      var refusal := SaveRefusal(db, team, newId);
      if refusal.Some? {
        return Err(refusal.value);
      }
      if Valid(db) {
        SavedTeamFound(db, team, newId);
      }
      r := Ok(team.(id := newId));
      db := db.(teams := db.teams + [team.(id := newId)]);
    }

    /** `Team().UpdateName(name, teamId)`. */
    method UpdateTeamName(name: string, teamId: string) returns (r: Option<AppError>)
      modifies this
      ensures old(db).online ==> r == None && db == old(db).(teams := Renamed(old(db).teams, teamId, name))
      ensures !old(db).online ==> r == Some(Unavailable) && db == old(db)
      ensures Valid(old(db)) ==> Valid(db)
    {
      if !db.online {
        return Some(Unavailable);
      }
      if Valid(db) {
        RenamedKeepsValid(db, teamId, name);
      }
      db := db.(teams := Renamed(db.teams, teamId, name));
      r := None;
    }

    /** `Team().Update(team)`: overwrites the stored record with the same id;
        there has to be one. */
    method UpdateTeam(team: Team) returns (r: Result<Team>)
      modifies this
      ensures GetTeam(old(db), team.id).Ok? ==> r == Ok(team) && db == old(db).(teams := Replaced(old(db).teams, team))
      ensures GetTeam(old(db), team.id).Err? ==> r == Err(GetTeam(old(db), team.id).error) && db == old(db)
    {
      var existing := GetTeam(db, team.id);
      if existing.Err? {
        return Err(existing.error);
      }
      db := db.(teams := Replaced(db.teams, team));
      r := Ok(team);
    }
  }
}
