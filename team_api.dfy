/** The team API handlers. A `Context` is one request: the error the handler
    leaves on it (`c.Err`), the mails it has sent, and the store it works on.
    Each handler is proved to end in the outcome `TeamRules` prescribes:
    which error is set, what the store holds afterwards, which mails went
    out and what is written back. */
module TeamApi {

  import opened Errors
  import opened GoStrings
  import opened Store
  import opened Token
  import opened TeamRules

  /** What `signupTeam` writes back: the request body, plus the link in dev mode. */
  datatype SignupReply = SignupReply(echo: map<string, string>, followLink: Option<Link>)

  /** What a handler ends in after the team record was saved: the error left
      on the context, the mails sent and what is written back. */
  datatype Outcome<R> = Outcome(err: Option<AppError>, sent: seq<Sent>, reply: Option<R>)

  /** The steps of `createTeamFromSignup` after `rteam` was saved: default
      channels (a failure ends the request with no error and no reply), the
      first user, the valet when the team allows one, then the invitations. */
  function AfterSignupSave(env: Env, rteam: Team, user: User, invites: seq<string>, now: int)
    : (o: Outcome<(Team, User)>)
    ensures var channels := env.deps.createDefaultChannels(rteam.id);
      var created := env.deps.createUser(rteam, user);
      var valet := env.deps.createValet(rteam);
      && (channels.Some? ==> o == Outcome(None, [], None))
      && (channels.None? && created.Err? ==> o == Outcome(Some(created.error), [], None))
      && (channels.None? && created.Ok? && rteam.allowValet && valet.Some? ==> o == Outcome(valet, [], None))
      && (o.reply.Some? <==> channels.None? && created.Ok? && !(rteam.allowValet && valet.Some?))
      && (o.reply.Some? ==>
            o.err.None? && o.reply.value == (rteam, created.value)
            && o.sent == InviteMails(env, rteam, created.value, invites, now))
    ensures o.sent != [] ==> o.reply.Some?
    ensures o.err.None? && o.reply.None? <==> env.deps.createDefaultChannels(rteam.id).Some?
  {
    if env.deps.createDefaultChannels(rteam.id).Some? then Outcome(None, [], None)
    else match env.deps.createUser(rteam, user)
      case Err(e) => Outcome(Some(e), [], None)
      case Ok(ruser) =>
        if rteam.allowValet && env.deps.createValet(rteam).Some? then Outcome(env.deps.createValet(rteam), [], None)
        else Outcome(None, InviteMails(env, rteam, ruser, invites, now), Some((rteam, ruser)))
  }

  /** The steps of `createTeam` after `rteam` was saved. */
  function AfterTeamSave(env: Env, rteam: Team): (o: Outcome<Team>)
    ensures o.sent == []
    ensures env.deps.createDefaultChannels(rteam.id).Some? ==> o == Outcome(None, [], None)
    ensures env.deps.createDefaultChannels(rteam.id).None? && rteam.allowValet && env.deps.createValet(rteam).Some? ==>
      o == Outcome(env.deps.createValet(rteam), [], None)
    ensures env.deps.createDefaultChannels(rteam.id).None? && !(rteam.allowValet && env.deps.createValet(rteam).Some?) ==>
      o == Outcome(None, [], Some(rteam))
    ensures o.reply.Some? <==> o.err.None? && env.deps.createDefaultChannels(rteam.id).None?
    ensures o.reply.Some? ==> o.reply.value == rteam
    ensures o.err.None? && o.reply.None? <==> env.deps.createDefaultChannels(rteam.id).Some?
  {
    if env.deps.createDefaultChannels(rteam.id).Some? then Outcome(None, [], None)
    else if rteam.allowValet && env.deps.createValet(rteam).Some? then Outcome(env.deps.createValet(rteam), [], None)
    else Outcome(None, [], Some(rteam))
  }

  class Context {
    const env: Env
    const store: Store
    var err: Option<AppError>
    var outbox: seq<Sent>

    constructor (env: Env, store: Store)
      ensures this.env == env && this.store == store
      ensures err == None && outbox == []
    {
      this.env := env;
      this.store := store;
      err := None;
      outbox := [];
    }

    /** `utils.SendMail`: records the attempt and reports whether it was delivered. */
    method SendMail(mail: Mail) returns (delivered: bool)
      modifies this`outbox
      ensures outbox == old(outbox) + [Send(env, mail)]
      ensures delivered == Send(env, mail).delivered
    {
      var sent := Send(env, mail);
      outbox := outbox + [sent];
      delivered := sent.delivered;
    }

    /** `signupTeam`: checks the e-mail before the name, mails the signed
        signup link, and fails only when that mail cannot be sent. */
    method SignupTeam(body: map<string, string>, now: int) returns (reply: Option<SignupReply>)
      requires err == None
      modifies this
      ensures var email := NormaliseEmail(Get(body, "email"));
        var name := TrimSpace(Get(body, "name"));
        if |email| == 0 then
          err == Some(InvalidParam("signupTeam", "email")) && outbox == old(outbox) && reply == None
        else if |name| == 0 then
          err == Some(InvalidParam("signupTeam", "name")) && outbox == old(outbox) && reply == None
        else
          var mail := SignupMail(env, email, name, now);
          outbox == old(outbox) + [Send(env, mail)] &&
          (if Send(env, mail).delivered then
             err == None && reply == Some(SignupReply(body, if env.cfg.mode == ModeDev then Some(mail.link) else None))
           else
             err == Some(MailFailed(email)) && reply == None)
    {
      var email := NormaliseEmail(Get(body, "email"));
      var name := TrimSpace(Get(body, "name"));
      if Utf8Len(email) == 0 {
        err := Some(InvalidParam("signupTeam", "email"));
        return None;
      }
      if Utf8Len(name) == 0 {
        err := Some(InvalidParam("signupTeam", "name"));
        return None;
      }
      var mail := SignupMail(env, email, name, now);
      var delivered := SendMail(mail);
      if !delivered {
        err := Some(MailFailed(email));
        return None;
      }
      var follow := if env.cfg.mode == ModeDev then Some(mail.link) else None;
      reply := Some(SignupReply(body, follow));
    }

    /** `createTeamFromSignup`: the gates of `FailedGate` in order; the team
        is saved only when all of them pass. */
    method CreateTeamFromSignup(signup: Option<TeamSignup>, now: int, newId: string)
      returns (reply: Option<(Team, User)>)
      requires err == None
      modifies this, store
      ensures signup.None? ==>
        err == Some(InvalidParam("createTeam", "teamSignup")) && store.db == old(store.db)
        && outbox == old(outbox) && reply == None
      ensures signup.Some? && FailedGate(env, old(store.db), signup.value, now).Some? ==>
        err == Some(GateError(FailedGate(env, old(store.db), signup.value, now).value, signup.value.team.urlId))
        && store.db == old(store.db) && outbox == old(outbox) && reply == None
      ensures store.db != old(store.db) ==> signup.Some? && FailedGate(env, old(store.db), signup.value, now).None?
      ensures signup.Some? && FailedGate(env, old(store.db), signup.value, now).None? ==>
        var s := signup.value;
        var team := TeamRules.SignupTeam(env, s).(id := "", allowValet := env.cfg.allowValetDefault);
        var refusal := SaveRefusal(old(store.db), team, newId);
        if refusal.Some? then
          err == refusal && store.db == old(store.db) && outbox == old(outbox) && reply == None
        else
          var rteam := team.(id := newId);
          var user := SignupUser(env, s).(id := "", teamId := newId, emailVerified := true);
          var o := AfterSignupSave(env, rteam, user, s.invites, now);
          store.db == old(store.db).(teams := old(store.db).teams + [rteam])
          && err == o.err && outbox == old(outbox) + o.sent && reply == o.reply
      ensures Valid(old(store.db)) ==> Valid(store.db)
    {
      if signup.None? {
        err := Some(InvalidParam("createTeam", "teamSignup"));
        return None;
      }
      var s := signup.value;
      var checked := CheckSignup(s, now);
      if checked.None? {
        return None;
      }
      var (team, user) := checked.value;

      team := team.(allowValet := env.cfg.allowValetDefault);
      var saved := store.SaveTeam(team, newId);
      if saved.Err? {
        err := Some(saved.error);
        return None;
      }
      reply := ProvisionSignup(saved.value, user.(teamId := saved.value.id, emailVerified := true), s.invites, now);
    }

    /** The checks of `createTeamFromSignup` before anything is saved: the
        team and the user with the link's e-mail must be valid, the link
        signed and fresh, and the URL id acceptable and free. On success it
        gives them back with their ids cleared. */
    method CheckSignup(s: TeamSignup, now: int) returns (checked: Option<(Team, User)>)
      requires err == None
      modifies this`err
      ensures checked.Some? <==> FailedGate(env, store.db, s, now).None?
      ensures checked.Some? ==>
        err == None
        && checked.value == (TeamRules.SignupTeam(env, s).(id := ""), SignupUser(env, s).(id := "", teamId := ""))
      ensures checked.None? ==> err == Some(GateError(FailedGate(env, store.db, s, now).value, s.team.urlId))
    {
      var props := env.deps.codec.decode(s.data);
      var team := s.team.(email := Get(props, "email"));
      var user := s.user.(email := Get(props, "email"));

      var teamCheck := env.deps.teamValid(team);
      if teamCheck.Some? {
        err := teamCheck;
        return None;
      }
      team := team.(id := "");

      var userCheck := env.deps.userValid(user);
      if userCheck.Some? {
        err := userCheck;
        return None;
      }
      user := user.(id := "", teamId := "");

      if !LinkSigned(env.deps.hasher, s.data, s.hash, env.cfg.inviteSalt) {
        err := Some(GateError(BadSignature, team.urlId));
        return None;
      }

      if LinkExpired(Get(props, "time"), now) {
        err := Some(GateError(Expired, team.urlId));
        return None;
      }

      var found := FindTeamByURLId(team.urlId, "true");
      if err.Some? {
        return None;
      }
      if found {
        err := Some(GateError(UrlIdTaken, team.urlId));
        return None;
      }
      checked := Some((team, user));
    }

    /** The steps of `createTeamFromSignup` once `rteam` is saved, as
        `AfterSignupSave` gives them. */
    method ProvisionSignup(rteam: Team, user: User, invites: seq<string>, now: int) returns (reply: Option<(Team, User)>)
      requires err == None
      modifies this`err, this`outbox
      ensures var o := AfterSignupSave(env, rteam, user, invites, now);
        err == o.err && outbox == old(outbox) + o.sent && reply == o.reply
    {
      if env.deps.createDefaultChannels(rteam.id).Some? {
        err := None;
        return None;
      }
      var created := env.deps.createUser(rteam, user);
      if created.Err? {
        err := Some(created.error);
        return None;
      }
      var ruser := created.value;
      if rteam.allowValet {
        var valet := env.deps.createValet(rteam);
        if valet.Some? {
          err := valet;
          return None;
        }
      }
      InviteMembers(rteam, ruser, invites, now);
      reply := Some((rteam, ruser));
    }

    /** `createTeam`: refused outside dev mode before the store is touched. */
    method CreateTeam(team: Option<Team>, newId: string) returns (reply: Option<Team>)
      requires err == None
      modifies this, store
      ensures outbox == old(outbox)
      ensures team.None? ==>
        err == Some(InvalidParam("createTeam", "team")) && store.db == old(store.db) && reply == None
      ensures team.Some? && env.cfg.mode != ModeDev ==>
        err == Some(CreateTeamNotAllowed) && store.db == old(store.db) && reply == None
      ensures team.Some? && env.cfg.mode == ModeDev && SaveRefusal(old(store.db), team.value, newId).Some? ==>
        err == SaveRefusal(old(store.db), team.value, newId) && store.db == old(store.db) && reply == None
      ensures team.Some? && env.cfg.mode == ModeDev && SaveRefusal(old(store.db), team.value, newId).None? ==>
        var rteam := team.value.(id := newId);
        var o := AfterTeamSave(env, rteam);
        store.db == old(store.db).(teams := old(store.db).teams + [rteam]) && err == o.err && reply == o.reply
      ensures Valid(old(store.db)) ==> Valid(store.db)
    {
      if team.None? {
        err := Some(InvalidParam("createTeam", "team"));
        return None;
      }
      if env.cfg.mode != ModeDev {
        err := Some(CreateTeamNotAllowed);
        return None;
      }
      var saved := store.SaveTeam(team.value, newId);
      if saved.Err? {
        err := Some(saved.error);
        return None;
      }
      var rteam := saved.value;
      if env.deps.createDefaultChannels(rteam.id).Some? {
        err := None;
        return None;
      }
      if rteam.allowValet {
        var valet := env.deps.createValet(rteam);
        if valet.Some? {
          err := valet;
          return None;
        }
      }
      reply := Some(rteam);
    }

    /** `findTeamByURLId`, the HTTP handler: normalises the id and reports
        whether a team has it, unless the probe set an error. */
    method FindTeamByURLIdHandler(body: map<string, string>) returns (reply: Option<bool>)
      requires err == None
      modifies this`err
      ensures var p := UrlIdProbe(env, store.db, ToLower(TrimSpace(Get(body, "urlId"))));
        err == p.err && reply == (if p.err.None? then Some(p.found) else None)
    {
      var urlId := ToLower(TrimSpace(Get(body, "urlId")));
      var all := ToLower(TrimSpace(Get(body, "all")));
      var found := FindTeamByURLId(urlId, all);
      if err.Some? {
        return None;
      }
      reply := Some(found);
    }

    /** `FindTeamByURLId`: the outcome `UrlIdProbe` gives (`all` is not used). */
    method FindTeamByURLId(urlId: string, all: string) returns (found: bool)
      requires err == None
      modifies this`err
      ensures found == UrlIdProbe(env, store.db, urlId).found
      ensures err == UrlIdProbe(env, store.db, urlId).err
    {
      if |urlId| == 0 || Utf8Len(urlId) > 64 {
        err := Some(InvalidParam("findTeamByURLId", "domain"));
        return false;
      }
      if env.deps.reserved(urlId) {
        err := Some(AppError("findTeamByURLId", UrlUnavailable, "urlid=" + urlId, Default));
        return false;
      }
      var result := GetTeamByURLId(store.db, urlId);
      if result.Err? {
        return false;
      } else {
        return true;
      }
    }

    /** `findTeams`: the URL ids of the teams registered under the e-mail, one
        per team, in store order. */
    method FindTeams(body: map<string, string>) returns (reply: Option<seq<string>>)
      requires err == None
      modifies this`err
      ensures var email := NormaliseEmail(Get(body, "email"));
        if |email| == 0 then err == Some(InvalidParam("findTeam", "email")) && reply == None
        else if !store.db.online then err == Some(Unavailable) && reply == None
        else
          var teams := TeamsWithEmail(store.db.teams, email);
          err == None && reply.Some? && |reply.value| == |teams|
          && forall k :: 0 <= k < |teams| ==> reply.value[k] == teams[k].urlId
    {
      var email := NormaliseEmail(Get(body, "email"));
      if |email| == 0 {
        err := Some(InvalidParam("findTeam", "email"));
        return None;
      }
      var result := GetTeamsForEmail(store.db, email);
      if result.Err? {
        err := Some(result.error);
        return None;
      }
      var teams := result.value;
      var s: seq<string> := [];
      for k := 0 to |teams|
        invariant |s| == k
        invariant forall j :: 0 <= j < k ==> s[j] == teams[j].urlId
      {
        s := s + [teams[k].urlId];
      }
      reply := Some(s);
    }

    /** `emailTeams`: mails the address its team list; a failed send is only
        logged, never reported. */
    method EmailTeams(body: map<string, string>) returns (reply: Option<map<string, string>>)
      requires err == None
      modifies this
      ensures var email := NormaliseEmail(Get(body, "email"));
        if |email| == 0 then err == Some(InvalidParam("findTeam", "email")) && outbox == old(outbox) && reply == None
        else err == None && outbox == old(outbox) + [Send(env, FindTeamsMail(email))] && reply == Some(body)
    {
      var email := NormaliseEmail(Get(body, "email"));
      if |email| == 0 {
        err := Some(InvalidParam("findTeam", "email"));
        return None;
      }
      var delivered := SendMail(FindTeamsMail(email));
      reply := Some(body);
    }

    /** `inviteMembers`: an empty list is a 400; the session's team and user
        must load; the first invite whose address is already in use aborts
        the request, reporting its index, before anything is sent; otherwise
        one invitation goes out per non-empty address. */
    method InviteMembersHandler(invites: seq<map<string, string>>, now: int)
      returns (reply: Option<seq<map<string, string>>>)
      requires err == None
      modifies this
      ensures |invites| == 0 ==> err == Some(NoOneToInvite) && outbox == old(outbox) && reply == None
      ensures |invites| > 0 ==>
        var teamResult := GetTeam(store.db, env.session.teamId);
        var userResult := GetUser(store.db, env.session.userId);
        var blocked := FirstBlocked(store.db, env.session.teamId, invites);
        if teamResult.Err? then err == Some(teamResult.error) && outbox == old(outbox) && reply == None
        else if userResult.Err? then err == Some(userResult.error) && outbox == old(outbox) && reply == None
        else if blocked.Some? then err == Some(AlreadyOnTeam(blocked.value)) && outbox == old(outbox) && reply == None
        else (err == None && reply == Some(invites)
              && outbox == old(outbox) + InviteMails(env, teamResult.value, userResult.value, Emails(invites), now))
    {
      if |invites| == 0 {
        err := Some(NoOneToInvite);
        return None;
      }

      var teamResult := GetTeam(store.db, env.session.teamId);
      var userResult := GetUser(store.db, env.session.userId);
      if teamResult.Err? {
        err := Some(teamResult.error);
        return None;
      }
      var team := teamResult.value;
      if userResult.Err? {
        err := Some(userResult.error);
        return None;
      }
      var user := userResult.value;

      var blocked := FirstTaken(invites);
      if blocked.Some? {
        err := Some(AlreadyOnTeam(blocked.value));
        return None;
      }
      var ia := PadEmails(invites);
      PaddingSkipped(env, team, user, |invites|, Emails(invites), now);
      InviteMembers(team, user, ia, now);
      reply := Some(invites);
    }

    /** The membership check of `inviteMembers`: the addresses are looked up
        in order and the first whose lookup does not fail with "couldn't
        find the existing account" is reported. */
    method FirstTaken(invites: seq<map<string, string>>) returns (blocked: Option<nat>)
      ensures blocked == FirstBlocked(store.db, env.session.teamId, invites)
    {
      var i := 0;
      while i < |invites|
        invariant 0 <= i <= |invites|
        invariant forall j :: 0 <= j < i ==> !Blocks(store.db, env.session.teamId, Get(invites[j], "email"))
      {
        var lookup := GetUserByEmail(store.db, env.session.teamId, Get(invites[i], "email"));
        if lookup.Ok? || lookup.error.message != AccountNotFound {
          FirstBlockedScan(store.db, env.session.teamId, invites, i);
          return Some(i);
        }
        i := i + 1;
      }
      FirstBlockedScan(store.db, env.session.teamId, invites, i);
      return None;
    }

    /** `InviteMembers`: one invitation per non-empty address, in order; a
        failed send is only logged. */
    method InviteMembers(team: Team, user: User, invites: seq<string>, now: int)
      modifies this`outbox
      ensures outbox == old(outbox) + InviteMails(env, team, user, invites, now)
    {
      for i := 0 to |invites|
        invariant outbox == old(outbox) + InviteMails(env, team, user, invites[..i], now)
      {
        InviteMailsPrefix(env, team, user, invites, i, now);
        Invite(team, user, invites[i], now);
      }
      assert invites[..|invites|] == invites;
    }

    /** One turn of the `InviteMembers` loop: an empty address is skipped. */
    method Invite(team: Team, user: User, invite: string, now: int)
      modifies this`outbox
      ensures outbox == old(outbox) + InviteStep(env, team, user, invite, now)
    {
      if Utf8Len(invite) > 0 {
        var delivered := SendMail(InviteMailTo(env, team, user, invite, now));
      }
    }

    /** `updateTeamName`: the checks in order; the rename always goes to the
        session's team, whichever team the `team_id` parameter named. */
    method UpdateTeamName(props: map<string, string>) returns (reply: Option<map<string, string>>)
      requires err == None
      modifies this`err, store
      ensures var newName := Get(props, "new_name");
        var teamId := ResolveTeamId(Get(props, "team_id"), env.session.teamId);
        if |newName| == 0 then
          err == Some(InvalidParam("updateTeamName", "new_name")) && store.db == old(store.db) && reply == None
        else if teamId.None? then
          err == Some(InvalidParam("updateTeamName", "team_id")) && store.db == old(store.db) && reply == None
        else if teamId.value !in env.permitted then
          err == Some(NoTeamAccess("updateTeamName", env.session, teamId.value)) && store.db == old(store.db) && reply == None
        else if !Contains(env.session.roles, RoleAdmin) then
          err == Some(NotTeamAdmin("updateTeamName", env.session)) && store.db == old(store.db) && reply == None
        else if !old(store.db).online then
          err == Some(Unavailable) && store.db == old(store.db) && reply == None
        else
          err == None && reply == Some(props)
          && store.db == old(store.db).(teams := Renamed(old(store.db).teams, env.session.teamId, newName))
      ensures Valid(old(store.db)) ==> Valid(store.db)
    {
      var newName := Get(props, "new_name");
      if Utf8Len(newName) == 0 {
        err := Some(InvalidParam("updateTeamName", "new_name"));
        return None;
      }
      var teamId := Get(props, "team_id");
      if Utf8Len(teamId) > 0 && Utf8Len(teamId) != 26 {
        err := Some(InvalidParam("updateTeamName", "team_id"));
        return None;
      } else if Utf8Len(teamId) == 0 {
        teamId := env.session.teamId;
      }
      if teamId !in env.permitted {
        err := Some(NoTeamAccess("updateTeamName", env.session, teamId));
        return None;
      }
      if !Contains(env.session.roles, RoleAdmin) {
        err := Some(NotTeamAdmin("updateTeamName", env.session));
        return None;
      }
      var result := store.UpdateTeamName(newName, env.session.teamId);
      if result.Some? {
        err := result;
        return None;
      }
      reply := Some(props);
    }

    /** `updateValetFeature`: the checks in order, then the stored team with
        only its `AllowValet` changed, true exactly for the string "true". */
    method UpdateValetFeature(props: map<string, string>) returns (reply: Option<map<string, string>>)
      requires err == None
      modifies this`err, store
      ensures var allow := Get(props, "allow_valet");
        var teamId := ResolveTeamId(Get(props, "team_id"), env.session.teamId);
        if |allow| == 0 then
          err == Some(InvalidParam("updateValetFeature", "allow_valet")) && store.db == old(store.db) && reply == None
        else if teamId.None? then
          err == Some(InvalidParam("updateValetFeature", "team_id")) && store.db == old(store.db) && reply == None
        else if teamId.value !in env.permitted then
          err == Some(NoTeamAccess("updateValetFeature", env.session, teamId.value)) && store.db == old(store.db) && reply == None
        else if !Contains(env.session.roles, RoleAdmin) then
          err == Some(NotTeamAdmin("updateValetFeature", env.session)) && store.db == old(store.db) && reply == None
        else
          var fetched := GetTeam(old(store.db), teamId.value);
          if fetched.Err? then
            err == Some(fetched.error) && store.db == old(store.db) && reply == None
          else
            err == None && reply == Some(props)
            && store.db == old(store.db).(teams := Replaced(old(store.db).teams, fetched.value.(allowValet := allow == "true")))
      ensures Valid(old(store.db)) ==> Valid(store.db)
    {
      var allowValetStr := Get(props, "allow_valet");
      if Utf8Len(allowValetStr) == 0 {
        err := Some(InvalidParam("updateValetFeature", "allow_valet"));
        return None;
      }
      var allowValet := allowValetStr == "true";

      var teamId := Get(props, "team_id");
      if Utf8Len(teamId) > 0 && Utf8Len(teamId) != 26 {
        err := Some(InvalidParam("updateValetFeature", "team_id"));
        return None;
      } else if Utf8Len(teamId) == 0 {
        teamId := env.session.teamId;
      }

      var fetched := GetTeam(store.db, teamId);
      if teamId !in env.permitted {
        err := Some(NoTeamAccess("updateValetFeature", env.session, teamId));
        return None;
      }
      if !Contains(env.session.roles, RoleAdmin) {
        err := Some(NotTeamAdmin("updateValetFeature", env.session));
        return None;
      }
      if fetched.Err? {
        err := Some(fetched.error);
        return None;
      }
      var team := fetched.value;
      team := team.(allowValet := allowValet);
      if Valid(store.db) {
        var k :| 0 <= k < |store.db.teams| && store.db.teams[k] == fetched.value;
        ReplacedKeepsValid(store.db, team, k);
      }
      var result := store.UpdateTeam(team);
      if result.Err? {
        // the record was read from this same store just above
        assert false;
      }
      reply := Some(props);
    }

    /** `getMyTeam`: nothing without a session team, else the stored team or the lookup's error. */
    method GetMyTeam() returns (reply: Option<Team>)
      requires err == None
      modifies this`err
      ensures |env.session.teamId| == 0 ==> err == None && reply == None
      ensures |env.session.teamId| > 0 ==>
        var r := GetTeam(store.db, env.session.teamId);
        if r.Err? then err == Some(r.error) && reply == None else err == None && reply == Some(r.value)
    {
      if Utf8Len(env.session.teamId) == 0 {
        return None;
      }
      var result := GetTeam(store.db, env.session.teamId);
      if result.Err? {
        err := Some(result.error);
        return None;
      }
      reply := Some(result.value);
    }
  }

  /** The address list `inviteMembers` builds: `make([]string, len(invites))`
      followed by one `email` per invite. */
  method PadEmails(invites: seq<map<string, string>>) returns (ia: seq<string>)
    ensures ia == Blanks(|invites|) + Emails(invites)
  {
    ia := seq(|invites|, _ => "");
    for k := 0 to |invites|
      invariant ia == Blanks(|invites|) + Emails(invites[..k])
    {
      assert Emails(invites[..k + 1]) == Emails(invites[..k]) + [Get(invites[k], "email")];
      ia := ia + [Get(invites[k], "email")];
    }
    assert invites[..|invites|] == invites;
  }
}
