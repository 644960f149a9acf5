/** The signed, time-bounded links the signup and invite mails carry. A link
    holds `d`, the JSON encoding of a small property map, and `h`, a password
    hash of `d + ":" + InviteSalt`. It is accepted when the hash matches and
    its `time` property, in milliseconds, is at most one hour old. JSON and
    the password hash live in code this model does not contain, so both are
    parameters: a `Codec` and a `Hasher`. */
module Token {

  import opened Errors
  import opened GoStrings

  /** How long a link stays valid: one hour, in milliseconds. */
  const ValidityMs: int := 1000 * 60 * 60

  /** `model.MapToJson` and `model.MapFromJson`; a malformed document decodes to some map. */
  datatype Codec = Codec(encode: map<string, string> -> string, decode: string -> map<string, string>)

  /** Decoding undoes encoding. */
  ghost predicate RoundTrips(codec: Codec) {
    forall m {:trigger codec.encode(m)} :: codec.decode(codec.encode(m)) == m
  }

  /** `model.HashPassword` and `model.ComparePassword(hash, password)`. */
  datatype Hasher = Hasher(hash: string -> string, compare: (string, string) -> bool)

  /** A freshly made hash matches the password it was made from. */
  ghost predicate Sound(hasher: Hasher) {
    forall p {:trigger hasher.hash(p)} :: hasher.compare(hasher.hash(p), p)
  }

  /** A read of a Go `map[string]string`: a missing key reads as "". */
  function Get(m: map<string, string>, key: string): (v: string)
    ensures key in m ==> v == m[key]
    ensures key !in m ==> v == ""
  {
    if key in m then m[key] else ""
  }

  /** The properties of a team-signup link. */
  function SignupPayload(email: string, name: string, now: int): (p: map<string, string>)
    ensures p.Keys == {"email", "name", "time"}
    ensures p["email"] == email && p["name"] == name && p["time"] == FormatInt(now)
  {
    map["email" := email, "name" := name, "time" := FormatInt(now)]
  }

  /** The properties of a link inviting `email` to join a team. */
  function InvitePayload(email: string, teamId: string, teamName: string, urlId: string, now: int)
    : (p: map<string, string>)
    ensures p.Keys == {"email", "id", "name", "urlId", "time"}
    ensures p["email"] == email && p["id"] == teamId && p["name"] == teamName
    ensures p["urlId"] == urlId && p["time"] == FormatInt(now)
  {
    map["email" := email, "id" := teamId, "name" := teamName, "urlId" := urlId, "time" := FormatInt(now)]
  }

  /** What gets hashed: `fmt.Sprintf("%v:%v", data, salt)`. */
  function SaltedInput(data: string, salt: string): string {
    data + ":" + salt
  }

  /** A link as mailed: `<base><path>?d=<data>&h=<hash>` (query escaping is not modelled). */
  datatype Link = Link(base: string, path: string, data: string, hash: string)

  /** Builds the link for `payload`. */
  function Issue(codec: Codec, hasher: Hasher, salt: string, base: string, path: string, payload: map<string, string>)
    : Link
  {
    var data := codec.encode(payload);
    Link(base, path, data, hasher.hash(SaltedInput(data, salt)))
  }

  /** The hash carried by a link matches its data under the salt. */
  predicate LinkSigned(hasher: Hasher, data: string, hash: string, salt: string) {
    hasher.compare(hash, SaltedInput(data, salt))
  }

  /** The expiry test of the signup handler: a `time` that does not parse as
      an int64 counts as expired, and so does one for which the int64
      difference `now - t`, which wraps around, exceeds one hour. */
  function LinkExpired(time: string, now: int): bool {
    match ParseInt64(time)
    case None => true
    case Some(t) => Wrap64(now - t) > ValidityMs
  }

  /** What validating a link ends in: the signature check comes first. */
  datatype LinkVerdict = Forged | Stale | Fresh(props: map<string, string>)

  /** The signature check, then the expiry check on the decoded `time`. */
  function CheckLink(codec: Codec, hasher: Hasher, salt: string, data: string, hash: string, now: int)
    : (v: LinkVerdict)
    ensures v == Forged <==> !LinkSigned(hasher, data, hash, salt)
    ensures v == Stale <==> LinkSigned(hasher, data, hash, salt) && LinkExpired(Get(codec.decode(data), "time"), now)
    ensures v.Fresh? ==> v.props == codec.decode(data)
  {
    if !LinkSigned(hasher, data, hash, salt) then Forged
    else
      var props := codec.decode(data);
      if LinkExpired(Get(props, "time"), now) then Stale else Fresh(props)
  }

  /** For times without overflow, the link is expired exactly when it is more
      than one hour old. */
  lemma ExpiryWindow(t: int, now: int)
    requires IsInt64(t) && IsInt64(now) && IsInt64(now - t)
    ensures LinkExpired(FormatInt(t), now) <==> now - t > ValidityMs
  {
    ParseFormatInt(t);
  }

  /** A link exactly one hour old is still accepted; one millisecond later it is not. */
  lemma ExpiryBoundary(t: int)
    requires IsInt64(t) && IsInt64(t + ValidityMs + 1)
    ensures !LinkExpired(FormatInt(t), t + ValidityMs)
    ensures LinkExpired(FormatInt(t), t + ValidityMs + 1)
  {
    ExpiryWindow(t, t + ValidityMs);
    ExpiryWindow(t, t + ValidityMs + 1);
  }

  /** A `time` with no digits after its optional sign, or with anything but
      a digit there, is expired whatever the clock says. */
  lemma UnreadableTimeExpired(time: string, now: int)
    requires |Unsigned(time)| == 0 || exists i :: 0 <= i < |Unsigned(time)| && !IsDigit(Unsigned(time)[i])
    ensures LinkExpired(time, now)
  {
  }

  /** So is a `time` whose value lies outside the int64 range. */
  lemma OutOfRangeTimeExpired(time: string, now: int)
    requires AllDigits(Unsigned(time)) && !IsInt64(SignedValue(time))
    ensures LinkExpired(time, now)
  {
  }

  /** A missing `time` (read as ""), a bare sign, a word and a number with
      trailing garbage are all expired. */
  lemma SampleUnreadableTimes(now: int)
    ensures LinkExpired("", now) && LinkExpired("-", now) && LinkExpired("+", now)
    ensures LinkExpired("soon", now) && LinkExpired("1x", now)
  {
    UnreadableTimeExpired("", now);
    UnreadableTimeExpired("-", now);
    UnreadableTimeExpired("+", now);
    assert !IsDigit(Unsigned("soon")[0]);
    UnreadableTimeExpired("soon", now);
    assert !IsDigit(Unsigned("1x")[1]);
    UnreadableTimeExpired("1x", now);
  }

  /** The wrap-around of `now - t`: a link whose time is the least int64 is
      accepted at time 1, because the difference wraps to a negative number. */
  lemma WrappedAgeAccepted()
    ensures !LinkExpired(FormatInt(MinInt64), 1)
  {
    ParseFormatInt(MinInt64);
  }

  /** A link the server issued for a payload stamped `t` is accepted (with
      that payload) at any time up to one hour later. */
  lemma IssuedLinkFresh(codec: Codec, hasher: Hasher, salt: string, base: string, path: string,
                        payload: map<string, string>, t: int, now: int)
    requires RoundTrips(codec) && Sound(hasher)
    requires "time" in payload && payload["time"] == FormatInt(t)
    requires IsInt64(t) && IsInt64(now) && t <= now <= t + ValidityMs
    ensures var link := Issue(codec, hasher, salt, base, path, payload);
      CheckLink(codec, hasher, salt, link.data, link.hash, now) == Fresh(payload)
  {
    var link := Issue(codec, hasher, salt, base, path, payload);
    assert hasher.compare(hasher.hash(SaltedInput(link.data, salt)), SaltedInput(link.data, salt));
    assert codec.decode(codec.encode(payload)) == payload;
    ExpiryWindow(t, now);
  }

  /** The same link presented more than one hour after `t` is stale. */
  lemma IssuedLinkStale(codec: Codec, hasher: Hasher, salt: string, base: string, path: string,
                        payload: map<string, string>, t: int, now: int)
    requires RoundTrips(codec) && Sound(hasher)
    requires "time" in payload && payload["time"] == FormatInt(t)
    requires IsInt64(t) && IsInt64(now) && IsInt64(now - t) && now - t > ValidityMs
    ensures var link := Issue(codec, hasher, salt, base, path, payload);
      CheckLink(codec, hasher, salt, link.data, link.hash, now) == Stale
  {
    var link := Issue(codec, hasher, salt, base, path, payload);
    assert hasher.compare(hasher.hash(SaltedInput(link.data, salt)), SaltedInput(link.data, salt));
    assert codec.decode(codec.encode(payload)) == payload;
    ExpiryWindow(t, now);
  }

  /** A signup link issued for `email` and checked within the hour yields
      that e-mail and name back. */
  lemma SignupLinkRoundTrip(codec: Codec, hasher: Hasher, salt: string, base: string,
                            email: string, name: string, t: int, now: int)
    requires RoundTrips(codec) && Sound(hasher)
    requires IsInt64(t) && IsInt64(now) && t <= now <= t + ValidityMs
    ensures var link := Issue(codec, hasher, salt, base, "/signup_team_complete/", SignupPayload(email, name, t));
      var v := CheckLink(codec, hasher, salt, link.data, link.hash, now);
      v.Fresh? && Get(v.props, "email") == email && Get(v.props, "name") == name
  {
    IssuedLinkFresh(codec, hasher, salt, base, "/signup_team_complete/", SignupPayload(email, name, t), t, now);
  }
}
