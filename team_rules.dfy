/** The decision rules of the team handlers, as functions of their inputs:
    the parameter checks, the URL-id probe, the ordered gates of a team
    signup, who an invitation says it is from, and the mails the handlers
    send. The handlers in `TeamApi` are proved to follow these rules. */
module TeamRules {

  import opened Errors
  import opened GoStrings
  import opened Store
  import opened Token

  // ---------------------------------------------------------------------
  // Configuration and the code behind the handlers that is not modelled

  const ModeDev := "dev"
  const RoleAdmin := "admin"
  const RoleSystemAdmin := "system_admin"

  /** `utils.Cfg`: the service mode, the invite salt and whether new teams get a valet. */
  datatype Config = Config(mode: string, inviteSalt: string, allowValetDefault: bool)

  /** Calls into code this model does not contain; each may succeed or fail. */
  datatype Deps = Deps(
    codec: Codec,
    hasher: Hasher,
    reserved: string -> bool,                    // model.IsReservedURLId
    teamValid: Team -> Option<AppError>,         // Team.IsValid
    userValid: User -> Option<AppError>,         // User.IsValid
    createDefaultChannels: string -> Option<AppError>,
    createUser: (Team, User) -> Result<User>,
    createValet: Team -> Option<AppError>)

  /** The signed-in session of a request. */
  datatype Session = Session(userId: string, teamId: string, roles: string)

  /** What a request runs against: configuration, dependencies, the session,
      the site and team URLs, the teams `HasPermissionsToTeam` grants and the
      addresses the mailer fails to deliver to. */
  datatype Env = Env(
    cfg: Config, deps: Deps, session: Session, siteUrl: string, teamUrl: string,
    permitted: set<string>, undeliverable: set<string>)

  // ---------------------------------------------------------------------
  // Errors the handlers raise

  const UrlUnavailable := "This URL is unavailable. Please try another."

  function NoTeamAccess(where: string, session: Session, teamId: string): AppError {
    AppError(where, "You do not have the appropriate permissions",
             "userId=" + session.userId + ", teamId=" + teamId, Forbidden)
  }

  function NotTeamAdmin(where: string, session: Session): AppError {
    AppError(where, "You do not have the appropriate permissions", "userId=" + session.userId, Forbidden)
  }

  function MailFailed(to: string): AppError {
    AppError("SendMail", "Failed to send mail", "to=" + to, Default)
  }

  const NoOneToInvite := AppError("Team.InviteMembers", "No one to invite.", "", BadRequest)

  function AlreadyOnTeam(index: nat): AppError {
    AppError("invite_members", "This person is already on your team", FormatInt(index), Default)
  }

  const CreateTeamNotAllowed :=
    AppError("createTeam", "The mode does not allow network creation without a valid invite", "", Default)

  // ---------------------------------------------------------------------
  // Parameter rules

  /** An e-mail as the handlers read it: trimmed and lower-cased. */
  function NormaliseEmail(s: string): (e: string)
    ensures |e| == |TrimSpace(s)| <= |s|
    ensures |e| == 0 <==> forall k :: 0 <= k < |s| ==> IsSpace(s[k])
    ensures forall i :: 0 <= i < |e| ==> !IsAsciiUpper(e[i])
    ensures forall i :: 0 <= i < |e| && !IsAsciiUpper(TrimSpace(s)[i]) ==> e[i] == TrimSpace(s)[i]
    ensures forall i :: 0 <= i < |e| && IsAsciiUpper(TrimSpace(s)[i]) ==> e[i] as int == TrimSpace(s)[i] as int + 32
  {
    TrimSpaceEmptyIff(s);
    ToLower(TrimSpace(s))
  }

  /** Normalising twice changes nothing more. */
  lemma NormaliseEmailIdempotent(s: string)
    ensures NormaliseEmail(NormaliseEmail(s)) == NormaliseEmail(s)
  {
    var t := TrimSpace(s);
    var e := ToLower(t);
    assert e != [] ==> e[0] == LowerChar(t[0]) && e[|e| - 1] == LowerChar(t[|t| - 1]);
    TrimSpaceUnchanged(e);
    ToLowerIdempotent(t);
  }

  /** The `team_id` parameter: empty means the session's team; otherwise it
      must be 26 bytes long, and `None` is the invalid-parameter case. */
  function ResolveTeamId(given: string, sessionTeamId: string): (r: Option<string>)
    ensures r.None? <==> given != "" && Utf8Len(given) != 26
    ensures given == "" ==> r == Some(sessionTeamId)
    ensures given != "" && r.Some? ==> r.value == given
  {
    if Utf8Len(given) > 0 && Utf8Len(given) != 26 then None
    else if Utf8Len(given) == 0 then Some(sessionTeamId)
    else Some(given)
  }

  /** A 26-character ASCII id is accepted as given. */
  lemma AsciiIdOfLength26Accepted(given: string, sessionTeamId: string)
    requires |given| == 26 && forall i :: 0 <= i < |given| ==> (given[i] as int) < 0x80
    ensures ResolveTeamId(given, sessionTeamId) == Some(given)
  {
  }

  /** The name invitations give as their sender: the full name unless it is
      blank, then the user name. */
  function SenderName(user: User): (s: string)
    ensures s == user.username <==> (TrimSpace(user.fullName) == [] || user.fullName == user.username)
    ensures TrimSpace(user.fullName) != [] ==> s == user.fullName
  {
    if Utf8Len(TrimSpace(user.fullName)) == 0 then user.username else user.fullName
  }

  /** The sender is the user name exactly when the full name is white space only. */
  lemma SenderNameBlank(user: User)
    requires user.fullName != user.username
    ensures SenderName(user) == user.username <==> forall k :: 0 <= k < |user.fullName| ==> IsSpace(user.fullName[k])
  {
    TrimSpaceEmptyIff(user.fullName);
  }

  /** The role invitations name: "administrator" when the roles string
      contains "admin" or "system_admin", else "member". */
  function SenderRole(roles: string): (r: string)
    ensures r == "administrator" || r == "member"
  {
    if Contains(roles, RoleAdmin) || Contains(roles, RoleSystemAdmin) then "administrator" else "member"
  }

  /** The "system_admin" test adds nothing: the role is "administrator"
      exactly when "admin" occurs in the roles string. */
  lemma SenderRoleIsAdminSubstring(roles: string)
    ensures SenderRole(roles) == "administrator" <==> exists i: nat :: OccursAt(roles, RoleAdmin, i)
  {
    ContainsIff(roles, RoleAdmin);
    if Contains(roles, RoleSystemAdmin) {
      assert RoleSystemAdmin[7..12] == RoleAdmin;
      ContainsPiece(roles, RoleSystemAdmin, 7, 12);
    }
  }

  // ---------------------------------------------------------------------
  // FindTeamByURLId

  /** The URL-id shape test: non-empty and at most 64 bytes. */
  predicate UrlIdShapeOk(urlId: string) {
    urlId != "" && Utf8Len(urlId) <= 64
  }

  /** The outcome of `FindTeamByURLId`: what it returns and the error it sets. */
  datatype Probe = Probe(found: bool, err: Option<AppError>)

  /** `FindTeamByURLId`: an id of the wrong size is an invalid parameter, a
      reserved one is unavailable, and otherwise the answer is whether the
      store lookup succeeds; a failed lookup sets no error. */
  function UrlIdProbe(env: Env, db: Db, urlId: string): (p: Probe)
    ensures p.found ==> p.err.None?
    ensures p.err.None? <==> UrlIdShapeOk(urlId) && !env.deps.reserved(urlId)
    ensures !UrlIdShapeOk(urlId) ==> p.err == Some(InvalidParam("findTeamByURLId", "domain"))
    ensures UrlIdShapeOk(urlId) && env.deps.reserved(urlId) ==> p.err.value.message == UrlUnavailable
    ensures p.found <==> UrlIdShapeOk(urlId) && !env.deps.reserved(urlId) && db.online
                         && exists k :: 0 <= k < |db.teams| && db.teams[k].urlId == urlId
  {
    if urlId == "" || Utf8Len(urlId) > 64 then
      Probe(false, Some(InvalidParam("findTeamByURLId", "domain")))
    else if env.deps.reserved(urlId) then
      Probe(false, Some(AppError("findTeamByURLId", UrlUnavailable, "urlid=" + urlId, Default)))
    else
      Probe(GetTeamByURLId(db, urlId).Ok?, None)
  }

  /** More than 64 characters is always too long, whatever they are. */
  lemma LongUrlIdRejected(env: Env, db: Db, urlId: string)
    requires |urlId| > 64
    ensures UrlIdProbe(env, db, urlId) == Probe(false, Some(InvalidParam("findTeamByURLId", "domain")))
  {
  }

  // ---------------------------------------------------------------------
  // createTeamFromSignup

  /** `model.TeamSignup`: the team and first user, addresses to invite, and the link's `d` and `h`. */
  datatype TeamSignup = TeamSignup(team: Team, user: User, invites: seq<string>, data: string, hash: string)

  /** The team of a signup, with the e-mail from the link's payload. */
  function SignupTeam(env: Env, s: TeamSignup): Team {
    s.team.(email := Get(env.deps.codec.decode(s.data), "email"))
  }

  /** The first user of a signup, with the e-mail from the link's payload. */
  function SignupUser(env: Env, s: TeamSignup): User {
    s.user.(email := Get(env.deps.codec.decode(s.data), "email"))
  }

  /** The gates of `createTeamFromSignup`, in the order they are checked. */
  datatype Gate =
    | TeamInvalid(e: AppError)
    | UserInvalid(e: AppError)
    | BadSignature
    | Expired
    | UrlIdRejected(e: AppError)
    | UrlIdTaken

  /** The first gate a signup fails against store `db` at time `now`, if any. */
  function FailedGate(env: Env, db: Db, s: TeamSignup, now: int): Option<Gate>
  {
    var team := SignupTeam(env, s);
    var user := SignupUser(env, s);
    if env.deps.teamValid(team).Some? then Some(TeamInvalid(env.deps.teamValid(team).value))
    else if env.deps.userValid(user).Some? then Some(UserInvalid(env.deps.userValid(user).value))
    else match CheckLink(env.deps.codec, env.deps.hasher, env.cfg.inviteSalt, s.data, s.hash, now)
      case Forged => Some(BadSignature)
      case Stale => Some(Expired)
      case Fresh(_) =>
        var probe := UrlIdProbe(env, db, team.urlId);
        if probe.err.Some? then Some(UrlIdRejected(probe.err.value))
        else if probe.found then Some(UrlIdTaken)
        else None
  }

  /** The team and the first user of a signup both pass validation. */
  predicate SignupValid(env: Env, s: TeamSignup) {
    env.deps.teamValid(SignupTeam(env, s)).None? && env.deps.userValid(SignupUser(env, s)).None?
  }

  /** The gates are checked in order: the signature and expiry gates are
      reached only by a valid team and user, the URL-id gates only by a
      fresh link, and a signup passes exactly when every check does. */
  lemma FailedGateOrder(env: Env, db: Db, s: TeamSignup, now: int)
    ensures var g := FailedGate(env, db, s, now);
      var link := CheckLink(env.deps.codec, env.deps.hasher, env.cfg.inviteSalt, s.data, s.hash, now);
      && (g == Some(BadSignature) <==> SignupValid(env, s) && link == Forged)
      && (g == Some(Expired) <==> SignupValid(env, s) && link == Stale)
      && (g.None? || g.value.UrlIdRejected? || g == Some(UrlIdTaken) ==> SignupValid(env, s) && link.Fresh?)
      && (g.None? <==>
            SignupValid(env, s) && link.Fresh? && UrlIdShapeOk(s.team.urlId)
            && !env.deps.reserved(s.team.urlId) && GetTeamByURLId(db, s.team.urlId).Err?)
  {
  }

  /** The error a failed gate puts on the context. */
  function GateError(g: Gate, urlId: string): AppError {
    match g
    case TeamInvalid(e) => e
    case UserInvalid(e) => e
    case BadSignature => AppError("createTeamFromSignup", "The signup link does not appear to be valid", "", Default)
    case Expired => AppError("createTeamFromSignup", "The signup link has expired", "", Default)
    case UrlIdRejected(e) => e
    case UrlIdTaken => AppError("createTeamFromSignup", UrlUnavailable, "d=" + urlId, Default)
  }

  /** A signup whose link the server issued within the hour, for a valid team
      and user, gets past the signature and expiry gates: it fails, if at
      all, only on its URL id, and the team is registered under the e-mail
      the link was issued for. */
  lemma IssuedSignupPassesLinkGates(env: Env, db: Db, s: TeamSignup, email: string, name: string, t: int, now: int)
    requires RoundTrips(env.deps.codec) && Sound(env.deps.hasher)
    requires IsInt64(t) && IsInt64(now) && t <= now <= t + ValidityMs
    requires var link := Issue(env.deps.codec, env.deps.hasher, env.cfg.inviteSalt, env.siteUrl,
                               "/signup_team_complete/", SignupPayload(email, name, t));
             s.data == link.data && s.hash == link.hash
    requires SignupValid(env, s)
    ensures var g := FailedGate(env, db, s, now); g.None? || g.value.UrlIdRejected? || g == Some(UrlIdTaken)
    ensures SignupTeam(env, s).email == email
  {
    FailedGateOrder(env, db, s, now);
    SignupLinkRoundTrip(env.deps.codec, env.deps.hasher, env.cfg.inviteSalt, env.siteUrl, email, name, t, now);
  }

  /** The same signup presented more than an hour later fails on expiry. */
  lemma LateSignupExpired(env: Env, db: Db, s: TeamSignup, email: string, name: string, t: int, now: int)
    requires RoundTrips(env.deps.codec) && Sound(env.deps.hasher)
    requires IsInt64(t) && IsInt64(now) && IsInt64(now - t) && now - t > ValidityMs
    requires var link := Issue(env.deps.codec, env.deps.hasher, env.cfg.inviteSalt, env.siteUrl,
                               "/signup_team_complete/", SignupPayload(email, name, t));
             s.data == link.data && s.hash == link.hash
    requires SignupValid(env, s)
    ensures FailedGate(env, db, s, now) == Some(Expired)
  {
    FailedGateOrder(env, db, s, now);
    IssuedLinkStale(env.deps.codec, env.deps.hasher, env.cfg.inviteSalt, env.siteUrl,
                    "/signup_team_complete/", SignupPayload(email, name, t), t, now);
  }

  // ---------------------------------------------------------------------
  // Mails

  datatype Mail =
    | SignupTeamMail(to: string, link: Link)
    | FindTeamsMail(to: string)
    | InviteMail(to: string, teamName: string, sender: string, senderRole: string, link: Link)

  /** One call of `utils.SendMail`, and whether the mailer accepted it. */
  datatype Sent = Sent(mail: Mail, delivered: bool)

  function Send(env: Env, mail: Mail): (s: Sent)
    ensures s.mail == mail
    ensures s.delivered <==> mail.to !in env.undeliverable
  {
    Sent(mail, mail.to !in env.undeliverable)
  }

  /** The mail `signupTeam` sends to `email`. */
  function SignupMail(env: Env, email: string, name: string, now: int): Mail {
    SignupTeamMail(email, Issue(env.deps.codec, env.deps.hasher, env.cfg.inviteSalt, env.siteUrl,
                                "/signup_team_complete/", SignupPayload(email, name, now)))
  }

  /** The invitation `InviteMembers` sends to `to`. */
  function InviteMailTo(env: Env, team: Team, user: User, to: string, now: int): Mail {
    InviteMail(to, team.name, SenderName(user), SenderRole(user.roles),
               Issue(env.deps.codec, env.deps.hasher, env.cfg.inviteSalt, env.teamUrl,
                     "/signup_user_complete/", InvitePayload(to, team.id, team.name, team.urlId, now)))
  }

  /** What `InviteMembers` sends for one address: nothing for an empty one. */
  function InviteStep(env: Env, team: Team, user: User, to: string, now: int): seq<Sent> {
    if Utf8Len(to) > 0 then [Send(env, InviteMailTo(env, team, user, to, now))] else []
  }

  /** The sends of `InviteMembers` over `invites`, in order. */
  function InviteMails(env: Env, team: Team, user: User, invites: seq<string>, now: int): seq<Sent> {
    if invites == [] then []
    else InviteMails(env, team, user, invites[..|invites| - 1], now) + InviteStep(env, team, user, invites[|invites| - 1], now)
  }

  lemma InviteMailsSnoc(env: Env, team: Team, user: User, init: seq<string>, last: string, now: int)
    ensures InviteMails(env, team, user, init + [last], now)
         == InviteMails(env, team, user, init, now) + InviteStep(env, team, user, last, now)
  {
    assert (init + [last])[..|init|] == init;
  }

  /** The sends over the first `i + 1` addresses extend those over the first `i`. */
  lemma InviteMailsPrefix(env: Env, team: Team, user: User, invites: seq<string>, i: nat, now: int)
    requires i < |invites|
    ensures InviteMails(env, team, user, invites[..i + 1], now)
         == InviteMails(env, team, user, invites[..i], now) + InviteStep(env, team, user, invites[i], now)
  {
    assert invites[..i + 1] == invites[..i] + [invites[i]];
    InviteMailsSnoc(env, team, user, invites[..i], invites[i], now);
  }

  /** The non-empty strings of `s`, in order. */
  function NonEmpty(s: seq<string>): (r: seq<string>)
    ensures |r| <= |s|
    ensures forall k :: 0 <= k < |r| ==> r[k] != ""
    ensures forall x :: x in r <==> x in s && x != ""
  {
    if s == [] then []
    else
      var rest := NonEmpty(s[..|s| - 1]);
      assert s == s[..|s| - 1] + [s[|s| - 1]];
      if s[|s| - 1] != "" then rest + [s[|s| - 1]] else rest
  }

  /** A single address is kept exactly when it is non-empty. */
  lemma NonEmptyOne(x: string)
    ensures NonEmpty([x]) == if x != "" then [x] else []
  {
    assert [x][..0] == [];
  }

  /** Filtering distributes over concatenation: order and repetitions of the
      non-empty addresses are kept. */
  lemma {:induction false} NonEmptyAppend(a: seq<string>, b: seq<string>)
    ensures NonEmpty(a + b) == NonEmpty(a) + NonEmpty(b)
    decreases |b|
  {
    if b == [] {
      assert a + b == a;
    } else {
      var init := b[..|b| - 1];
      assert (a + b)[..|a + b| - 1] == a + init;
      assert (a + b)[|a + b| - 1] == b[|b| - 1];
      NonEmptyAppend(a, init);
    }
  }

  /** `InviteMembers` sends exactly one invitation per non-empty address, in
      list order, each from `SenderName(user)` in role `SenderRole(user.roles)`. */
  lemma {:induction false} InviteMailsPerAddress(env: Env, team: Team, user: User, invites: seq<string>, now: int)
    ensures var sent := InviteMails(env, team, user, invites, now);
      var to := NonEmpty(invites);
      |sent| == |to| &&
      forall k :: 0 <= k < |sent| ==> sent[k] == Send(env, InviteMailTo(env, team, user, to[k], now))
  {
    if invites != [] {
      var init := invites[..|invites| - 1];
      InviteMailsPerAddress(env, team, user, init, now);
    }
  }

  /** What an invitation says: sent to the address, naming the team, the
      sender and the role, with a link whose payload is exactly the e-mail,
      team id, team name, URL id and time. */
  lemma InvitationContents(env: Env, team: Team, user: User, invites: seq<string>, now: int, k: nat)
    requires k < |NonEmpty(invites)|
    ensures k < |InviteMails(env, team, user, invites, now)|
    ensures var m := InviteMails(env, team, user, invites, now)[k].mail;
      m.InviteMail? && m.to == NonEmpty(invites)[k] && m.to != "" &&
      m.teamName == team.name && m.sender == SenderName(user) && m.senderRole == SenderRole(user.roles) &&
      m.link.data == env.deps.codec.encode(InvitePayload(m.to, team.id, team.name, team.urlId, now)) &&
      m.link.hash == env.deps.hasher.hash(SaltedInput(m.link.data, env.cfg.inviteSalt))
  {
    InviteMailsPerAddress(env, team, user, invites, now);
  }

  /** `n` empty strings: what `make([]string, n)` holds. */
  function Blanks(n: nat): (r: seq<string>)
    ensures |r| == n && forall k :: 0 <= k < n ==> r[k] == ""
  {
    seq(n, _ => "")
  }

  /** Leading empty strings send nothing: the padding `inviteMembers` puts in
      front of the addresses does not change which invitations go out. */
  lemma {:induction false} PaddingSkipped(env: Env, team: Team, user: User, n: nat, emails: seq<string>, now: int)
    ensures InviteMails(env, team, user, Blanks(n) + emails, now) == InviteMails(env, team, user, emails, now)
    decreases |emails|, n
  {
    if emails != [] {
      var init := emails[..|emails| - 1];
      var last := emails[|emails| - 1];
      assert emails == init + [last];
      assert Blanks(n) + emails == (Blanks(n) + init) + [last];
      InviteMailsSnoc(env, team, user, Blanks(n) + init, last, now);
      InviteMailsSnoc(env, team, user, init, last, now);
      PaddingSkipped(env, team, user, n, init, now);
    } else if n > 0 {
      assert Blanks(n) + emails == Blanks(n - 1) + [""];
      InviteMailsSnoc(env, team, user, Blanks(n - 1), "", now);
      PaddingSkipped(env, team, user, n - 1, [], now);
      assert Blanks(n - 1) + [] == Blanks(n - 1);
    } else {
      assert Blanks(n) + emails == [];
    }
  }

  /** The e-mail field of each invite, in order. */
  function Emails(invites: seq<map<string, string>>): (r: seq<string>)
    ensures |r| == |invites| && forall k :: 0 <= k < |invites| ==> r[k] == Get(invites[k], "email")
  {
    seq(|invites|, k requires 0 <= k < |invites| => Get(invites[k], "email"))
  }

  /** An address blocks the invitation when its lookup gives anything but the
      "couldn't find the existing account" error. */
  predicate Blocks(db: Db, teamId: string, email: string) {
    var r := GetUserByEmail(db, teamId, email);
    r.Ok? || r.error.message != AccountNotFound
  }

  /** On a reachable store, an address blocks exactly when a user of the team
      has it; on an unreachable one every address blocks. */
  lemma BlocksIff(db: Db, teamId: string, email: string)
    ensures Blocks(db, teamId, email) <==>
      !db.online || exists k :: 0 <= k < |db.users| && db.users[k].teamId == teamId && db.users[k].email == email
  {
  }

  /** The index of the first invite that blocks, if any. */
  function FirstBlocked(db: Db, teamId: string, invites: seq<map<string, string>>): (r: Option<nat>)
    ensures r.Some? ==> r.value < |invites| && Blocks(db, teamId, Get(invites[r.value], "email"))
    ensures r.Some? ==> forall j :: 0 <= j < r.value ==> !Blocks(db, teamId, Get(invites[j], "email"))
    ensures r.None? ==> forall j :: 0 <= j < |invites| ==> !Blocks(db, teamId, Get(invites[j], "email"))
  {
    FirstIndex(Emails(invites), (email: string) => Blocks(db, teamId, email))
  }

  /** A scan that finds no blocking address before `i` and stops at `i` has
      found `FirstBlocked`. */
  lemma FirstBlockedScan(db: Db, teamId: string, invites: seq<map<string, string>>, i: nat)
    requires i <= |invites|
    requires forall j :: 0 <= j < i ==> !Blocks(db, teamId, Get(invites[j], "email"))
    ensures i == |invites| ==> FirstBlocked(db, teamId, invites) == None
    ensures i < |invites| && Blocks(db, teamId, Get(invites[i], "email")) ==>
      FirstBlocked(db, teamId, invites) == Some(i)
  {
  }
}
