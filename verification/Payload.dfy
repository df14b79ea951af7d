/** The encrypted cookie content (session.go), as a value and as the record handlers update. */
module Payload {
  import opened Wrappers
  import opened Clock
  import opened Identity

  /** The nine payload fields a User carries and fromUser overwrites. */
  datatype Profile = Profile(
    sub: string, email: string, ev: bool, name: string, orgId: string,
    mbs: seq<Membership>, claims: map<string, string>, rls: seq<string>, sid: string)

  /** All of sessionPayload: the profile and the fields that belong to the session alone. */
  datatype Payload = Payload(
    profile: Profile, idToken: string, exp: int,
    accessToken: string, refreshToken: string, accessTokenExp: int,
    lastValidated: int, resolveRetryAt: int, src: string, aut: int)

  const SOURCE_GRANT := "grant"

  predicate IsGrantMinted(p: Payload) {
    p.src == SOURCE_GRANT
  }

  function UnixOrZero(t: Option<Time>): int {
    match t
    case None => 0
    case Some(at) => Unix(at)
  }

  function TimeOrZero(seconds: int): Option<Time> {
    if seconds <= 0 then None else Some(seconds * SECOND)
  }

  function ToUser(p: Payload): User {
    var f := p.profile;
    User(f.sub, f.email, f.ev, f.name, f.orgId, f.mbs, f.claims, f.rls, f.sid, TimeOrZero(p.aut), None)
  }

  function ProfileOf(u: User): Profile {
    Profile(u.sub, u.email, u.emailVerified, u.name, u.orgId, u.memberships, u.claims, u.realmRoles, u.sessionId)
  }

  function FromUser(p: Payload, u: User): Payload {
    p.(profile := ProfileOf(u))
  }

  /** The session's identity without anything a resolver sets. */
  function StoredIdentity(p: Payload): User {
    var f := p.profile;
    User(f.sub, f.email, f.ev, f.name, "", [], f.claims, f.rls, f.sid, None, None)
  }

  /**
   What a mutation leaves in the User is what the next reader gets, all but the authentication time and the
   landing, which a session does not take from a User; and the stored identity is the one the ID token named.
   */
  lemma UserRoundTrip(p: Payload, u: User)
    ensures ToUser(FromUser(p, u)) == u.(authTime := TimeOrZero(p.aut), landing := None)
    ensures FromUser(p, ToUser(p)) == p
    ensures StoredIdentity(FromUser(p, u)) == u.(orgId := "", memberships := [], authTime := None, landing := None)
  {
  }

  /**
   The mutable record. fromUser's nine assignments are one assignment of the profile here; every
   other field is updated on its own, as the source does.
   */
  class SessionPayload {
    var profile: Profile
    var idToken: string
    var exp: int
    var accessToken: string
    var refreshToken: string
    var accessTokenExp: int
    var lastValidated: int
    var resolveRetryAt: int
    var src: string
    var aut: int

    function Value(): Payload
      reads this
    {
      Payload(profile, idToken, exp, accessToken, refreshToken, accessTokenExp, lastValidated, resolveRetryAt, src, aut)
    }

    /** A payload decoded from a cookie. */
    constructor (p: Payload)
      ensures Value() == p
    {
      profile, idToken, exp := p.profile, p.idToken, p.exp;
      accessToken, refreshToken, accessTokenExp := p.accessToken, p.refreshToken, p.accessTokenExp;
      lastValidated, resolveRetryAt, src, aut := p.lastValidated, p.resolveRetryAt, p.src, p.aut;
    }

    method SetFromUser(u: User)
      modifies `profile
      ensures Value() == FromUser(old(Value()), u)
    {
      profile := ProfileOf(u);
    }
  }
}
