/**
 The login gates and the resolver as one function (admission.go), the re-resolution of a live
 session (reresolve.go), and what the login callback does with the same answer (auth.go).
 */
module Admission {
  import opened Wrappers
  import opened Clock
  import opened Identity
  import opened Payload
  import opened Config
  import opened Answers
  import opened StepUp
  import Decimal

  /** The errors errors.Is can find inside an error chain. */
  datatype Sentinel = EmailNotVerified | EmailDomainMismatch | EmailClaimMissing | ResolverFailed | ResolverNoUser

  /** An error, seen through errors.Is: the sentinels it wraps. errors.Join is union. */
  type Error = set<Sentinel>

  /** The domain gate's verdict on an identity, taken as given. */
  datatype DomainVerdict = DomainOk | DomainMismatch | DomainMissing

  datatype ResolverAnswer = Erred(err: Error) | NoUser | Answer(user: User)

  datatype Admitted = Refused(err: Error) | Admit(user: User)

  const REASON_EMAIL_UNVERIFIED := "email_not_verified"
  const REASON_DOMAIN_MISMATCH := "email_domain_mismatch"
  const REASON_DOMAIN_MISSING := "email_claim_missing_or_malformed"
  const REASON_NO_USER := "resolver_no_user"
  const REASON_RESOLVER_FAILED := "resolver_error"
  const REASON_OTHER := ""

  function AdmitIdentity(cfg: Config, identity: User, domain: DomainVerdict, answer: ResolverAnswer): Admitted {
    if cfg.requireEmailVerified && !identity.emailVerified then Refused({EmailNotVerified})
    else if domain == DomainMissing then Refused({EmailClaimMissing})
    else if domain == DomainMismatch then Refused({EmailDomainMismatch})
    else if !cfg.hasUserResolver then Admit(identity)
    else
      match answer
      case Erred(err) => Refused({ResolverFailed} + err)
      case NoUser => Refused({ResolverNoUser})
      case Answer(user) => Admit(user)
  }

  function AdmissionReason(err: Error): string {
    if EmailNotVerified in err then REASON_EMAIL_UNVERIFIED
    else if EmailDomainMismatch in err then REASON_DOMAIN_MISMATCH
    else if EmailClaimMissing in err then REASON_DOMAIN_MISSING
    else if ResolverNoUser in err then REASON_NO_USER
    else if ResolverFailed in err then REASON_RESOLVER_FAILED
    else REASON_OTHER
  }

  /** revalidationIdentity: the refreshed ID token's user when it verifies for this subject. */
  function RevalidationIdentity(p: Payload, refreshed: Option<User>): User {
    if refreshed.Some? && refreshed.value.sub == p.profile.sub then refreshed.value else StoredIdentity(p)
  }

  function Reresolve(cfg: Config, identity: User, domain: DomainVerdict, answer: ResolverAnswer): Outcome {
    match AdmitIdentity(cfg, identity, domain, answer)
    case Refused(err) => if AdmissionReason(err) == REASON_RESOLVER_FAILED then Soft else Ended
    case Admit(user) =>
      if HasNoOrg(user) && RedirectTarget(user.landing).Some? then Ended else Applied(user)
  }

  function ApplyResolution(p: Payload, resolved: User): Payload {
    var previous := p.profile.orgId;
    var q := FromUser(p, resolved);
    if previous != "" && previous != q.profile.orgId && IsMemberOf(resolved.memberships, previous)
    then q.(profile := q.profile.(orgId := previous))
    else q
  }

  // ----- the login callback on the same identity and answer -----

  /** A login is refused, or stores a session and sends the browser to a landing page or onward. */
  datatype Login = LoginRefused(err: Error) | LoginLanded(session: Payload, url: string) | LoginDone(session: Payload)

  function NewSession(cfg: Config, now: Time, rawIdToken: string, authTime: Option<Time>, tokens: Option<Token>,
                      user: User): Payload {
    var p := Payload(ProfileOf(user), rawIdToken, Unix(now + cfg.sessionTTL), "", "", 0, Unix(now), 0, "",
        UnixOrZero(authTime));
    if cfg.retainTokens && tokens.Some? then
      p.(accessToken := tokens.value.access, refreshToken := tokens.value.refresh,
          accessTokenExp := Unix(tokens.value.expiry))
    else p
  }

  function LoginWith(cfg: Config, now: Time, rawIdToken: string, tokens: Option<Token>,
                     identity: User, domain: DomainVerdict, answer: ResolverAnswer): Login {
    match AdmitIdentity(cfg, identity, domain, answer)
    case Refused(err) => LoginRefused(err)
    case Admit(user) =>
      var session := NewSession(cfg, now, rawIdToken, identity.authTime, tokens, user);
      match RedirectTarget(user.landing)
      case Some(url) => LoginLanded(session, url)
      case None => LoginDone(session)
  }

  /** The resolver cannot move the session's auth_time. */
  lemma LoginStoresAuthTime(cfg: Config, now: Time, idToken: string, tokens: Option<Token>, identity: User,
                            domain: DomainVerdict, answer: ResolverAnswer)
    ensures var login := LoginWith(cfg, now, idToken, tokens, identity, domain, answer);
            !login.LoginRefused? ==> login.session.aut == UnixOrZero(identity.authTime)
  {
  }

  /**
   A step-up login that is let through stores the auth_time of the verified ID token, whatever user the
   resolver answers with, and that time is at least the login's start less max_age and the 30 s skew.
   */
  lemma StepUpSessionIsRecent(cfg: Config, raw: string, start: Time, claim: int, now: Time, idToken: string,
                              tokens: Option<Token>,
                              identity: User, domain: DomainVerdict, answer: ResolverAnswer)
    requires 0 < Unix(start) <= Decimal.INT64_MAX && ParseMaxAge(raw).Requested?
    requires identity.authTime == ExtractAuthTime(claim)
    ensures var login := LoginWith(cfg, now, idToken, tokens, identity, domain, answer);
            MaxAgeVerified(LoginMarker(raw, start).value, identity.authTime) && !login.LoginRefused? ==>
              login.session.aut == claim && claim >= Unix(start) - ParseMaxAge(raw).seconds - 30
  {
    LoginStoresAuthTime(cfg, now, idToken, tokens, identity, domain, answer);
    StepUpAdmitsExactly(raw, start, claim);
  }

  /**
   Who is let in, exactly: the gates come before the resolver and nothing it answers overrides them. A login that
   is not refused stores the resolver's user, or the token's own without a resolver, with the tokens if they
   are retained, and goes to the landing page that user's decision names.
   */
  lemma LoginExactly(cfg: Config, now: Time, idToken: string, tokens: Option<Token>,
                     identity: User, domain: DomainVerdict, answer: ResolverAnswer)
    ensures var login := LoginWith(cfg, now, idToken, tokens, identity, domain, answer);
            var user := if cfg.hasUserResolver && answer.Answer? then answer.user else identity;
            && (login.LoginRefused? <==>
                  || (cfg.requireEmailVerified && !identity.emailVerified)
                  || domain != DomainOk
                  || (cfg.hasUserResolver && !answer.Answer?))
            && (!login.LoginRefused? ==>
                  && login.session.profile == ProfileOf(user) && login.session.idToken == idToken
                  && (login.LoginLanded? <==> RedirectTarget(user.landing).Some?)
                  && (login.LoginLanded? ==> Some(login.url) == RedirectTarget(user.landing))
                  && (if cfg.retainTokens && tokens.Some? then
                        && login.session.accessToken == tokens.value.access
                        && login.session.refreshToken == tokens.value.refresh
                        && login.session.accessTokenExp == Unix(tokens.value.expiry)
                      else
                        login.session.accessToken == login.session.refreshToken == ""))
  {
  }

  /**
   A refusal names the first gate that failed: an unverified address before its domain, a domain before the
   resolver.
   */
  lemma RefusalNamesTheFirstGate(cfg: Config, identity: User, domain: DomainVerdict, answer: ResolverAnswer)
    ensures var admitted := AdmitIdentity(cfg, identity, domain, answer);
            admitted.Refused? ==>
              AdmissionReason(admitted.err) ==
              if cfg.requireEmailVerified && !identity.emailVerified then "email_not_verified"
              else if domain == DomainMissing then "email_claim_missing_or_malformed"
              else if domain == DomainMismatch then "email_domain_mismatch"
              else if answer.NoUser? then "resolver_no_user"
              else AdmissionReason({ResolverFailed} + answer.err)
  {
  }

  /**
   Revalidation re-checks the gate on the refreshed token's claim when it names this subject, else on the
   stored one.
   */
  lemma RevalidationRechecksTheGate(cfg: Config, p: Payload, refreshed: Option<User>, domain: DomainVerdict,
                                    answer: ResolverAnswer)
    requires cfg.requireEmailVerified && cfg.hasUserResolver && answer.Answer? && !HasNoOrg(answer.user)
    ensures var verified := if refreshed.Some? && refreshed.value.sub == p.profile.sub then
            refreshed.value.emailVerified
                            else p.profile.ev;
            var outcome := Reresolve(cfg, RevalidationIdentity(p, refreshed), domain, answer);
            outcome == if verified && domain == DomainOk then Applied(answer.user) else Ended
  {
    SoftExactlyOnCleanFailure(cfg, RevalidationIdentity(p, refreshed), domain, answer);
  }

  /** The sentinels that outrank a resolver failure when the refusal is named. */
  const GATE_SENTINELS: set<Sentinel> := {EmailNotVerified, EmailDomainMismatch, EmailClaimMissing, ResolverNoUser}

  /** The answer came from the resolver as an error that no gate sentinel hides behind. */
  predicate CleanResolverFailure(cfg: Config, identity: User, domain: DomainVerdict, answer: ResolverAnswer) {
    && !(cfg.requireEmailVerified && !identity.emailVerified)
    && domain == DomainOk && cfg.hasUserResolver && answer.Erred? && answer.err !! GATE_SENTINELS
  }

  lemma ReasonIsResolverFailure(err: Error)
    ensures AdmissionReason(err) == REASON_RESOLVER_FAILED <==> ResolverFailed in err && err !! GATE_SENTINELS
  {
  }

  /** A session is softly kept exactly when the resolver failed and its error hides no gate sentinel. */
  lemma SoftExactlyOnCleanFailure(cfg: Config, identity: User, domain: DomainVerdict, answer: ResolverAnswer)
    ensures Reresolve(cfg, identity, domain, answer).Soft? <==> CleanResolverFailure(cfg, identity, domain, answer)
  {
    var admitted := AdmitIdentity(cfg, identity, domain, answer);
    if admitted.Refused? {
      ReasonIsResolverFailure(admitted.err);
      if answer.Erred? {
        assert {ResolverFailed} + answer.err !! GATE_SENTINELS <==> answer.err !! GATE_SENTINELS;
      }
    }
  }

  /**
   Re-resolution and login agree on every identity and answer. A session is softly kept exactly on a
   clean resolver failure; otherwise it ends exactly when login refuses or sends an org-less person to
   a landing page; otherwise it stores the profile a login would store, except that a picked
   organization still among the new memberships is kept, and touches no other field.
   */
  lemma ReresolveAgreesWithLogin(cfg: Config, p: Payload, now: Time, idToken: string, tokens: Option<Token>,
                                 identity: User, domain: DomainVerdict, answer: ResolverAnswer)
    ensures var outcome := Reresolve(cfg, identity, domain, answer);
            var login := LoginWith(cfg, now, idToken, tokens, identity, domain, answer);
            && (outcome.Soft? <==> CleanResolverFailure(cfg, identity, domain, answer))
            && (outcome.Soft? ==> login.LoginRefused?)
            && (outcome.Ended? <==>
                  || (login.LoginRefused? && !outcome.Soft?)
                  || (login.LoginLanded? && login.session.profile.orgId == "" && login.session.profile.mbs == []))
            && (outcome.Applied? ==>
                  var stored := login.session.profile;
                  var picked := p.profile.orgId;
                  ApplyResolution(p, outcome.resolved) ==
                  p.(profile :=
                       if picked != "" && IsMemberOf(stored.mbs, picked) then stored.(orgId := picked) else stored))
  {
    SoftExactlyOnCleanFailure(cfg, identity, domain, answer);
  }

  /** A resolver error that wraps a gate's own error ends the session instead of failing open. */
  lemma ErrorWrappingAGateEndsTheSession(cfg: Config, identity: User, err: Error)
    requires cfg.hasUserResolver && (cfg.requireEmailVerified ==> identity.emailVerified)
    ensures Reresolve(cfg, identity, DomainOk, Erred(err)).Ended? <==> exists x :: x in err && x in GATE_SENTINELS
    ensures Reresolve(cfg, identity, DomainOk, Erred({EmailNotVerified})).Ended?
  {
    SoftExactlyOnCleanFailure(cfg, identity, DomainOk, Erred(err));
    SoftExactlyOnCleanFailure(cfg, identity, DomainOk, Erred({EmailNotVerified}));
    assert EmailNotVerified in {EmailNotVerified} * GATE_SENTINELS;
    if !(err !! GATE_SENTINELS) {
      var x :| x in err * GATE_SENTINELS;
    }
  }

  // ----- a picked organization over a run of answers -----

  function ApplyAll(p: Payload, answers: seq<User>): Payload
    decreases |answers|
  {
    if answers == [] then p else ApplyAll(ApplyResolution(p, answers[0]), answers[1..])
  }

  /** The pick survives as long as every answer contains it. */
  lemma {:induction false} PickSurvives(p: Payload, answers: seq<User>)
    requires p.profile.orgId != ""
    requires forall i :: 0 <= i < |answers| ==> IsMemberOf(answers[i].memberships, p.profile.orgId)
    ensures ApplyAll(p, answers).profile.orgId == p.profile.orgId
    decreases |answers|
  {
    if answers != [] {
      PickSurvives(ApplyResolution(p, answers[0]), answers[1..]);
    }
  }

  /** The first answer without the pick replaces it by that answer's own organization. */
  lemma PickIsDropped(p: Payload, kept: seq<User>, without: User)
    requires p.profile.orgId != ""
    requires forall i :: 0 <= i < |kept| ==> IsMemberOf(kept[i].memberships, p.profile.orgId)
    requires !IsMemberOf(without.memberships, p.profile.orgId)
    ensures ApplyAll(p, kept + [without]).profile.orgId == without.orgId
  {
    PickSurvives(p, kept);
    ApplyAllAppend(p, kept, without);
  }

  lemma {:induction false} ApplyAllAppend(p: Payload, answers: seq<User>, last: User)
    ensures ApplyAll(p, answers + [last]) == ApplyResolution(ApplyAll(p, answers), last)
    decreases |answers|
  {
    if answers == [] {
      assert ApplyAll(p, [last]) == ApplyAll(ApplyResolution(p, last), [last][1..]);
    } else {
      ApplyAllAppend(ApplyResolution(p, answers[0]), answers[1..], last);
      assert (answers + [last])[1..] == answers[1..] + [last];
    }
  }

  /** applyResolution on the mutable record. */
  method ApplyResolutionTo(payload: SessionPayload, resolved: User)
    modifies payload`profile
    ensures payload.Value() == ApplyResolution(old(payload.Value()), resolved)
  {
    var previousOrg := payload.profile.orgId;
    payload.SetFromUser(resolved);
    if previousOrg != "" && previousOrg != payload.profile.orgId && IsMemberOf(resolved.memberships, previousOrg) {
      payload.profile := payload.profile.(orgId := previousOrg);
    }
  }
}
