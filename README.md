# Team API handlers: a verified model

This project models the team handlers of the platform's HTTP API: team signup by mail link, team creation, URL-id lookup, the team lists for an e-mail address, member invitations, renaming a team, switching its valet feature and fetching the session's team. It models their decision logic and proves what each handler ends in:

- which error it leaves on the request context;
- whether and how the store is written;
- which mails go out;
- what is written back.

The model is organised in five modules:

- `Errors`: `AppError` with its HTTP status, `Option` and `Result`, and the invalid-parameter error of `SetInvalidParam`.
- `GoStrings`: the Go library behaviour the handlers depend on:
  - `len` as a UTF-8 byte count;
  - `strings.TrimSpace` with `unicode.IsSpace`;
  - `strings.ToLower`;
  - `strings.Contains`;
  - `%v` of an integer;
  - `strconv.ParseInt(s, 10, 64)`;
  - int64 wrap-around.
- `Store`: the team and user records, and the store. The store is a value `Db` (teams, users, and whether it answers), held by a `Store` object whose write methods replace it. Every store call is synchronous and answers with a value or an error.
- `Token`: the signed, one-hour links of the signup and invite mails. JSON encoding (`Codec`) and password hashing (`Hasher`) are parameters, and the lemmas assume only that decoding undoes encoding and that a fresh hash matches its input.
- `TeamRules`: the handlers' rules as functions:
  - the e-mail normalisation;
  - the `team_id` rule;
  - the URL-id probe;
  - the ordered gates of a team signup;
  - the sender name and role of an invitation;
  - the mails each handler sends.
- `TeamApi`: the handlers, as methods of a `Context` class. The class holds the request's error (`c.Err`) and an outbox of sent mails, and works on a `Store`. Each handler's postcondition lists its outcomes in the order the code checks them.

Calls into code that is not part of this model are fields of an `Env` value. Each may succeed or fail:

- `IsValid` of a team and of a user;
- `IsReservedURLId`;
- `CreateDefaultChannels`, `CreateUser` and `CreateValet`;
- the JSON codec and the password hash.

`Env` also holds the teams `HasPermissionsToTeam` grants and the addresses the mailer cannot deliver to. The clock is not part of `Env`: each handler that reads it takes the time `now` as a parameter.

The store's `Valid` predicate says no two teams share an id or a URL id. `Team().Save` refuses a new team whose id or URL id is taken, and every handler that writes the store keeps it valid.

After a team is saved, `createTeamFromSignup` and `createTeam` clear the error and answer nothing when the default channels cannot be created (api/team.go:138-141, 187-190). The caller is not told that the team exists without its channels. The model follows the code here, and `TeamApi.AfterSignupSave` states that such a request ends silently exactly when channel creation fails.

`inviteMembers` builds its address list as `make([]string, len(invites))` followed by `append`. The list therefore starts with as many empty strings as there are invites. `TeamRules.PaddingSkipped` proves this padding changes nothing: `InviteMembers` skips empty addresses.

## Model

| member | source | states |
|---|---|---|
| Errors.InvalidParam | api/team.go:40-42 | the invalid-parameter error is a 400 raised at the named handler |
| GoStrings.Utf8Len | api/team.go:40 | `len` of a string lies between its character count and four times that count, is zero exactly for the empty string, and equals the character count for ASCII |
| GoStrings.Utf8LenOne | api/team.go:402 | the byte count of one character is its UTF-8 length |
| GoStrings.Utf8LenAppend | api/team.go:227 | byte counts add up over concatenation, so `len` is the sum of the UTF-8 lengths of the characters (what the 26- and 64-byte tests measure) |
| GoStrings.TrimSpace | api/team.go:37-38 | the trimmed string is no longer than the input and neither starts nor ends with a space |
| GoStrings.TrimSpaceIsSlice | api/team.go:37-38 | the trimmed string is a piece of the input with only spaces cut off before and after it |
| GoStrings.TrimSpaceUnchanged | api/team.go:37-38 | a string with no space at either end is left as it is |
| GoStrings.TrimSpaceIdempotent | api/team.go:37-38 | trimming twice equals trimming once |
| GoStrings.TrimSpaceEmptyIff | api/team.go:347 | the trimmed string is empty exactly when every character is a space |
| GoStrings.ToLower | api/team.go:37 | lower-casing keeps the length, turns each upper-case ASCII letter into its lower-case letter and keeps every other character |
| GoStrings.ToLowerIdempotent | api/team.go:37 | lower-casing twice equals lower-casing once |
| GoStrings.ContainsIff | api/team.go:354 | `Contains` holds exactly when the substring occurs at some position |
| GoStrings.ContainsPiece | api/team.go:354 | a string that contains a word contains every piece of that word |
| GoStrings.Contains | api/team.go:354 | defines `strings.Contains` as a left-to-right scan; its meaning is stated by `ContainsIff` |
| GoStrings.Wrap64 | api/team.go:115 | int64 wrap-around gives an int64 congruent to the exact result modulo 2^64, and leaves int64 values unchanged |
| GoStrings.Decimal | api/team.go:57 | the decimal rendering is a non-empty string of digits |
| GoStrings.FormatInt | api/team.go:375 | defines `%v` of an integer (also at line 57): a minus sign before the digits of a negative number; `ParseFormatInt` proves it parses back |
| GoStrings.ParseInt64 | api/team.go:114 | parsing succeeds exactly when the text after an optional sign is a non-empty run of digits whose signed value is in the int64 range, and then gives that value |
| GoStrings.DecimalValue | api/team.go:57 | reading back the written digits gives the number |
| GoStrings.ParseFormatInt | api/team.go:114 | the time the server writes into a link parses back to the same int64 |
| Store.GetTeam | api/team.go:302 | the lookup succeeds exactly when the store answers and holds a team with that id, and then returns such a team |
| Store.GetTeamByURLId | api/team.go:237 | the lookup succeeds exactly when the store answers and holds a team with that URL id |
| Store.TeamsWithEmail | api/team.go:257 | the result holds exactly the stored teams registered under the e-mail |
| Store.TeamsWithEmailOne | api/team.go:257 | a single team is kept exactly when it is registered under the e-mail |
| Store.TeamsWithEmailAppend | api/team.go:257 | the filter distributes over concatenation, so the teams keep their store order and repetitions |
| Store.GetTeamsForEmail | api/team.go:257 | the lookup fails only when the store does not answer, and otherwise gives the teams under the e-mail |
| Store.GetUser | api/team.go:303 | the lookup succeeds exactly when the store answers and holds a user with that id |
| Store.GetUserByEmail | api/team.go:323 | the lookup succeeds exactly when the team has a user with the address, and fails with "couldn't find the existing account" exactly when the store answers and has none |
| Store.Renamed | api/team.go:419 | teams with the id get the new name and every other team is untouched |
| Store.Replaced | api/team.go:469 | teams with the id are replaced by the new record and every other team is untouched |
| Store.Store.SaveTeam | api/team.go:132 | a save the store does not refuse appends the team under its new id and returns it; a refused one returns the refusal and changes nothing; a valid store stays valid |
| Store.SaveRefusal | api/team.go:132 | a save is refused exactly when the store is unavailable or a stored team already has the new id or the URL id |
| Store.SavedTeamFound | api/team.go:132 | after an accepted save a valid store stays valid, and both the id lookup and the URL-id lookup find the new team |
| Store.RenamedKeepsValid | api/team.go:419 | renaming teams keeps ids and URL ids unique |
| Store.ReplacedKeepsValid | api/team.go:469 | overwriting a team with a record of the same id and URL id keeps ids and URL ids unique |
| Store.Store.UpdateTeamName | api/team.go:419 | an answering store renames the team; an unavailable one changes nothing; a valid store stays valid |
| Store.Store.UpdateTeam | api/team.go:469 | the stored record is overwritten when one with that id exists; otherwise the lookup error is returned and nothing changes |
| Token.Get | api/team.go:87 | reading a missing key of a Go map gives the empty string |
| Token.SignupPayload | api/team.go:54-57 | the signup payload holds exactly `email`, `name` and `time` |
| Token.InvitePayload | api/team.go:370-375 | the invitation payload holds exactly `email`, `id`, `name`, `urlId` and `time` |
| Token.Issue | api/team.go:59-62 | defines a mailed link: the encoded payload and the hash of it with the salt (also at lines 376-378); `IssuedLinkFresh` and `IssuedLinkStale` state what checking it gives |
| Token.LinkSigned | api/team.go:109 | defines the signature test: the link's hash matches its data with the salt appended |
| Token.LinkExpired | api/team.go:114-115 | defines the expiry test: an unparseable `time`, or an int64 age `now - t` that wraps and exceeds one hour; `ExpiryWindow`, `ExpiryBoundary`, `UnreadableTimeExpired`, `OutOfRangeTimeExpired` and `WrappedAgeAccepted` state its properties |
| Token.CheckLink | api/team.go:109-118 | a link is forged exactly when its hash does not match; a signed link is stale exactly when the decoded `time` is expired; an accepted link yields the decoded payload |
| Token.ExpiryWindow | api/team.go:114-118 | without overflow, a link is expired exactly when `now - t` exceeds one hour |
| Token.ExpiryBoundary | api/team.go:115 | a link exactly one hour old is accepted, and one a millisecond older is not |
| Token.UnreadableTimeExpired | api/team.go:114-118 | every `time` with no digits after its optional sign, or with a non-digit there, is expired at any clock value |
| Token.OutOfRangeTimeExpired | api/team.go:114-118 | every `time` of digits whose value lies outside the int64 range is expired |
| Token.SampleUnreadableTimes | api/team.go:114-118 | a missing time, a bare sign, a word and a number with trailing garbage are each expired |
| Token.WrappedAgeAccepted | api/team.go:115 | the int64 subtraction wraps, so a link stamped with the least int64 is accepted |
| Token.IssuedLinkFresh | api/team.go:59-60 | a link the server issued is accepted within the hour and yields its payload |
| Token.IssuedLinkStale | api/team.go:114-118 | a link the server issued is stale once more than an hour has passed |
| Token.SignupLinkRoundTrip | api/team.go:54-62 | a signup link checked within the hour gives back its e-mail and name |
| TeamRules.NormaliseEmail | api/team.go:37 | the normalised e-mail is the trimmed field with its ASCII letters lower-cased, and it is empty exactly when the field is blank (the empty-e-mail gate at lines 40, 252 and 279) |
| TeamRules.NormaliseEmailIdempotent | api/team.go:37 | normalising an e-mail twice equals normalising it once |
| TeamRules.ResolveTeamId | api/team.go:401-407 | a non-empty id whose length is not 26 is rejected; an empty id becomes the session's team; any other id is kept |
| TeamRules.AsciiIdOfLength26Accepted | api/team.go:402 | a 26-character ASCII id is accepted as given |
| TeamRules.SenderName | api/team.go:346-351 | the sender is the full name unless it is blank after trimming, in which case it is the user name |
| TeamRules.SenderNameBlank | api/team.go:347 | the user name is used exactly when the full name is all white space |
| TeamRules.SenderRole | api/team.go:353-358 | the role is "administrator" or "member" |
| TeamRules.SenderRoleIsAdminSubstring | api/team.go:354 | the role is "administrator" exactly when "admin" occurs in the roles string, so the system-admin test adds nothing |
| TeamRules.UrlIdProbe | api/team.go:225-244 | an empty or over-64-byte id is an invalid parameter; a reserved id is unavailable; otherwise the result is whether the store lookup succeeds, and a failed lookup sets no error |
| TeamRules.LongUrlIdRejected | api/team.go:227-230 | any id of more than 64 characters is rejected as an invalid parameter |
| TeamRules.SignupTeam | api/team.go:86-87 | defines the signup's team with the e-mail read from the link's payload |
| TeamRules.SignupUser | api/team.go:86-88 | defines the signup's first user with the e-mail read from the link's payload |
| TeamRules.FailedGate | api/team.go:92-128 | defines the first gate a signup fails, in source order; `FailedGateOrder`, `IssuedSignupPassesLinkGates` and `LateSignupExpired` state its properties |
| TeamRules.GateError | api/team.go:110-126 | defines the error each failed gate leaves: the validation error, the invalid-link error (110), the expired-link error (116), the URL-id error, or the URL-unavailable error (126) |
| TeamRules.FailedGateOrder | api/team.go:92-128 | the gates run in order: validity, then signature, then expiry, then the URL id; a signup passes exactly when all of them pass |
| TeamRules.IssuedSignupPassesLinkGates | api/team.go:86-128 | a valid signup carrying a link the server issued within the hour can fail only on its URL id, and the team gets the link's e-mail |
| TeamRules.LateSignupExpired | api/team.go:114-118 | the same signup presented more than an hour later fails on expiry |
| TeamRules.Send | api/team.go:384 | a send records the mail, and it is delivered exactly when the mailer accepts the address |
| TeamRules.SignupMail | api/team.go:54-64 | defines the signup mail: to the e-mail, with a `/signup_team_complete/` link on the site URL over the signup payload |
| TeamRules.InviteMailTo | api/team.go:360-384 | defines one invitation: to the address, naming the team, sender and role, with a `/signup_user_complete/` link on the team URL over the invitation payload |
| TeamRules.InviteStep | api/team.go:342-387 | defines one turn of the loop: one send for a non-empty address, nothing for an empty one |
| TeamRules.InviteMails | api/team.go:341-388 | defines the sends of the whole loop, in order; `InviteMailsPerAddress` and `InvitationContents` state what they are |
| TeamRules.InviteMailsSnoc | api/team.go:341-388 | the mails for a list with one more address are the earlier mails plus the mail for that address |
| TeamRules.InviteMailsPrefix | api/team.go:341-388 | one more turn of the loop adds exactly that address's mail |
| TeamRules.NonEmpty | api/team.go:342 | the kept addresses are exactly the non-empty ones |
| TeamRules.NonEmptyOne | api/team.go:342 | a single address is kept exactly when it is non-empty |
| TeamRules.NonEmptyAppend | api/team.go:341-342 | the filter distributes over concatenation, so the non-empty addresses keep their order and repetitions |
| TeamRules.InviteMailsPerAddress | api/team.go:341-388 | exactly one invitation is sent per non-empty address, in list order |
| TeamRules.InvitationContents | api/team.go:360-378 | each invitation goes to its address and names the team, the sender and the role; its link carries exactly the invitation payload, hashed with the salt |
| TeamRules.Blanks | api/team.go:330 | `make([]string, n)` holds n empty strings |
| TeamRules.PaddingSkipped | api/team.go:330-335 | the empty strings in front of the address list send nothing |
| TeamRules.Emails | api/team.go:331-333 | the address list holds the `email` of each invite, in order |
| TeamRules.Blocks | api/team.go:323 | defines when an address aborts the invitation: its lookup succeeds or fails with any other message than "couldn't find the existing account"; `BlocksIff` states its meaning |
| TeamRules.BlocksIff | api/team.go:323 | an address blocks the invitation exactly when the store is unavailable or the team has a user with that address |
| TeamRules.FirstBlocked | api/team.go:322-328 | the reported index is the first address that blocks: it blocks and none before it does |
| TeamRules.FirstBlockedScan | api/team.go:322-328 | a scan that stops at the first blocking address, or finds none, agrees with `FirstBlocked` |
| TeamApi.AfterSignupSave | api/team.go:136-164 | a channel failure ends with no error, no mail and no reply; a user failure leaves its error; a valet failure leaves its error; otherwise the reply is the saved team with the created user, and the invitations `InviteMails` gives for that user go out; the request ends silently exactly when channel creation fails |
| TeamApi.AfterTeamSave | api/team.go:185-200 | no mail is sent; a channel failure ends with no error and no reply; a valet failure leaves its error; when neither fails the saved team is written back with no error |
| TeamApi.Context.SendMail | api/team.go:64 | the mail is appended to the outbox, and the result says whether it was delivered |
| TeamApi.Context.SignupTeam | api/team.go:34-75 | an empty e-mail is rejected before an empty name; otherwise exactly one signup mail is sent; a failed send sets the error; a delivered one echoes the body, with the link in dev mode only |
| TeamApi.Context.CreateTeamFromSignup | api/team.go:77-165 | a missing signup is an invalid parameter; a failed gate sets its error and changes nothing; the store changes only when every gate passed; a refused save sets its error; otherwise the team is saved with the link's e-mail and the valet default and the outcome follows `AfterSignupSave`; a valid store stays valid |
| TeamApi.Context.CheckSignup | api/team.go:86-128 | the signup is accepted exactly when no gate fails, and otherwise the error of the first failed gate is set |
| TeamApi.Context.ProvisionSignup | api/team.go:136-164 | the steps after the save end as `AfterSignupSave` prescribes |
| TeamApi.Context.CreateTeam | api/team.go:167-201 | a missing team is an invalid parameter; any mode but dev is refused before the store is touched; a refused save sets its error; otherwise the team is saved and the outcome follows `AfterTeamSave`; a valid store stays valid |
| TeamApi.Context.FindTeamByURLIdHandler | api/team.go:203-223 | the id is trimmed and lower-cased; the handler sets the probe's error, or else answers whether a team has the id |
| TeamApi.Context.FindTeamByURLId | api/team.go:225-244 | the result and the error are those of `UrlIdProbe` |
| TeamApi.Context.FindTeams | api/team.go:246-271 | an empty normalised e-mail is rejected; otherwise one URL id per team under the e-mail, in store order |
| TeamApi.Context.EmailTeams | api/team.go:273-292 | an empty normalised e-mail is rejected; otherwise one mail is sent and the body echoed, whether or not the mail was delivered |
| TeamApi.Context.InviteMembersHandler | api/team.go:294-338 | an empty list is a 400; team and user lookup errors come next; then the first blocking address aborts with its index before any mail; otherwise the invitations for the addresses go out |
| TeamApi.Context.FirstTaken | api/team.go:321-328 | the scan reports the first address whose lookup does not fail with "couldn't find the existing account" |
| TeamApi.Context.InviteMembers | api/team.go:340-389 | the outbox gains exactly the invitations `InviteMails` gives, in order |
| TeamApi.Context.Invite | api/team.go:341-387 | one turn of the loop sends to a non-empty address and skips an empty one |
| TeamApi.Context.UpdateTeamName | api/team.go:391-425 | the checks run in order (name, team id, permission, admin role, store); the rename goes to the session's team whatever `team_id` named; a valid store stays valid |
| TeamApi.Context.UpdateValetFeature | api/team.go:427-475 | the checks run in order; then the fetched team is stored with only `AllowValet` changed, to true exactly for the string "true"; a valid store stays valid |
| TeamApi.Context.GetMyTeam | api/team.go:477-494 | nothing happens without a session team; otherwise the stored team or the lookup error |
| TeamApi.PadEmails | api/team.go:330-333 | the address list is the empty padding followed by the invites' e-mails |

## Left out

- Logging (`l4g`), HTTP headers, ETags (`HandleEtag`), template pages, route registration and `url.QueryEscape` are not modelled. A link keeps its data and hash unescaped.
- JSON encoding, password hashing, `IsValid`, `PreSave`, `IsReservedURLId`, `CreateDefaultChannels`, `CreateUser`, `CreateValet` and `HasPermissionsToTeam` are defined in files that are not part of this model. They are parameters of `Env`, and each may succeed or fail.
- The clock is one parameter `now` per request. The source reads `GetMillis` afresh for each link, so this model does not capture two links of one request carrying different times.
- Store channels are synchronous calls. The concurrency of the two lookups `inviteMembers` starts together is not modelled.
- The store's error texts other than "We couldn't find the existing account" are placeholders. This covers the unavailable store, the not-found errors and the two refusals of `Save`. The texts of the mailer error and of the permission error are placeholders too. The handlers compare only that first text, and any other store failure blocks an invitation, as at api/team.go:323.
- The store's own id generation is a parameter `newId` of the handlers that save. A generated id that collides is refused like any taken id, and the store code's other reasons to refuse a save are not modelled.
- Store.TeamsWithEmail: the store's query behind `GetTeamsForEmail` is not part of this model. Matching the team's own `email` field is a modelling choice; the store could instead return the teams of the users with that address.
- The store invariant `Valid` covers team ids and URL ids only. The uniqueness of user records is not modelled.
- TeamRules.SenderRoleIsAdminSubstring: relies on the role names "admin" and "system_admin" (`model.ROLE_ADMIN` and `model.ROLE_SYSTEM_ADMIN`). Their definitions are not part of this model.
- GoStrings.ToLower: lower-cases ASCII letters only. Go's `strings.ToLower` also maps non-ASCII upper-case letters, and Unicode case tables are not modelled.
- TeamRules.NormaliseEmail: inherits the ASCII-only lower-casing of `GoStrings.ToLower`.
- TeamApi.Context.CheckSignup: validates the team and the user as submitted, with the link's e-mail. It does not model the `PreSave` calls or the temporary `NewId` team id the source assigns before `IsValid`. The password the source saves and restores around `PreSave` is kept unchanged.
- TeamApi.Context.CreateTeamFromSignup: `CreateUser` is one result-valued call. Its own store writes are not modelled, so the store afterwards differs from the old one only by the new team.
- TeamApi.Context.UpdateValetFeature: the `Update` error branch is unreachable in this model. The record was read from the same synchronous store just before, so the write cannot miss it. The source could fail there when the store changes in between.
- TeamApi.Context.FindTeamByURLIdHandler: the `all` parameter is read but unused, as in the source. The team-URL response header is not modelled.
