/** The revalidation floor (revalidate.go): one request's work on one session. */
module Revalidate {
  import opened Wrappers
  import opened Clock
  import opened Payload
  import opened Config
  import opened Answers
  import opened Admission
  import opened StepUp

  const REVALIDATE_TRANSPORT_BACKOFF: Duration := 30 * SECOND

  // ----- pure decisions -----

  function ValidationAnchor(cfg: Config, p: Payload): int {
    if p.lastValidated > 0 then p.lastValidated else p.exp - Seconds(cfg.sessionTTL)
  }

  /** A backoff never reaches the interval it is borrowed from. */
  function TransportBackoff(cfg: Config): (b: Duration)
    requires cfg.revalidateInterval > 0
    ensures 0 <= b < cfg.revalidateInterval && b <= REVALIDATE_TRANSPORT_BACKOFF
    ensures 2 * SECOND <= cfg.revalidateInterval ==> SECOND <= b
  {
    if REVALIDATE_TRANSPORT_BACKOFF >= cfg.revalidateInterval then cfg.revalidateInterval / 2
    else REVALIDATE_TRANSPORT_BACKOFF
  }

  predicate ResolveRetryDue(cfg: Config, p: Payload, now: Time) {
    cfg.reresolveOnRevalidate && p.resolveRetryAt > 0 && Unix(now) >= p.resolveRetryAt
  }

  datatype Work = Nothing | AskIdp | AskResolver

  /** What maybeRevalidate finds due. A session without a refresh token cannot be asked about. */
  function DueWork(cfg: Config, p: Payload, now: Time): Work {
    if cfg.revalidateInterval <= 0 then Nothing
    else if now - ValidationAnchor(cfg, p) * SECOND >= cfg.revalidateInterval then
      if p.refreshToken == "" then Nothing else AskIdp
    else if ResolveRetryDue(cfg, p, now) then AskResolver
    else Nothing
  }

  /** How a request goes on: with the payload as it was, with a re-stamped one, or signed out. */
  datatype Served = Kept(p: Payload) | Stamped(p: Payload) | SignedOut

  function BackedOff(cfg: Config, p: Payload, now: Time): Payload
    requires cfg.revalidateInterval > 0
  {
    p.(lastValidated := Unix(now + (TransportBackoff(cfg) - cfg.revalidateInterval)))
  }

  /** The token set and auth_time of a successful grant. */
  function WithGrant(p: Payload, tokens: Token, aut: int): Payload {
    p.(accessToken := tokens.access, accessTokenExp := Unix(tokens.expiry),
       refreshToken := if tokens.refresh != "" then tokens.refresh else p.refreshToken,
       aut := MergeRefreshedAuthTime(p.aut, aut))
  }

  function Slid(cfg: Config, p: Payload, now: Time): Payload {
    p.(resolveRetryAt := 0, lastValidated := Unix(now), exp := Unix(now + cfg.sessionTTL))
  }

  function AfterGrant(cfg: Config, p: Payload, now: Time, shared: Shared): Served
    requires cfg.revalidateInterval > 0 && !shared.Resolved?
  {
    match shared
    case Failed(err) => if IsSessionRevoked(err) then SignedOut else Stamped(BackedOff(cfg, p, now))
    case Granted(tokens, aut, reresolved) =>
      var q := WithGrant(p, tokens, aut);
      match reresolved
      case None => Stamped(Slid(cfg, q, now))
      case Some(Applied(user)) => Stamped(Slid(cfg, ApplyResolution(q, user), now))
      case Some(Soft) =>
        Stamped(q.(lastValidated := Unix(now), resolveRetryAt := Unix(now + TransportBackoff(cfg))))
      case Some(Ended) => SignedOut
  }

  function AfterRetry(cfg: Config, p: Payload, now: Time, shared: Shared): Served
    requires cfg.revalidateInterval > 0 && !shared.Granted?
  {
    match shared
    case Failed(_) => Kept(p)
    case Resolved(Ended) => SignedOut
    case Resolved(Soft) => Stamped(p.(resolveRetryAt := Unix(now + TransportBackoff(cfg))))
    case Resolved(Applied(user)) =>
      var q := ApplyResolution(p, user).(resolveRetryAt := 0);
      var allowed := q.lastValidated + Seconds(cfg.sessionTTL);
      Stamped(if allowed > q.exp then q.(exp := allowed) else q)
  }

  /** The flight's answer fits the work that is due. */
  predicate Fitting(work: Work, shared: Shared) {
    match work
    case Nothing => true
    case AskIdp => !shared.Resolved?
    case AskResolver => !shared.Granted?
  }

  function MaybeRevalidate(cfg: Config, p: Payload, now: Time, shared: Shared): Served
    requires Fitting(DueWork(cfg, p, now), shared)
  {
    match DueWork(cfg, p, now)
    case Nothing => Kept(p)
    case AskIdp => AfterGrant(cfg, p, now, shared)
    case AskResolver => AfterRetry(cfg, p, now, shared)
  }

  /**
   A session from before LastValidated existed falls due an interval after the second it was issued in;
   with a TTL that is not whole seconds, at most one second of the issue time is lost to rounding.
   */
  lemma LegacySessionKeepsItsIssueAnchor(cfg: Config, p: Payload, issued: Time, now: Time)
    requires Accepted(cfg) && cfg.revalidateInterval > 0
    requires p.lastValidated <= 0 && p.exp == Unix(issued + cfg.sessionTTL) && p.refreshToken != ""
    ensures DueWork(cfg, p, now).AskIdp? ==> now > issued + cfg.revalidateInterval - SECOND
    ensures now >= issued + cfg.revalidateInterval + SECOND ==> DueWork(cfg, p, now).AskIdp?
    ensures cfg.sessionTTL % SECOND == 0 ==>
              (DueWork(cfg, p, now).AskIdp? <==> now >= Unix(issued) * SECOND + cfg.revalidateInterval)
  {
  }

  /**
   What is due, and when. The provider,
       once the interval has passed since the anchor and there is a token to ask with; the
   resolver alone, before that, from the second its pending retry names and only while re-resolution is on.
   */
  lemma DueExactly(cfg: Config, p: Payload, now: Time)
    requires cfg.revalidateInterval > 0
    ensures var since := now - ValidationAnchor(cfg, p) * SECOND;
            && (DueWork(cfg, p, now).AskIdp? <==> since >= cfg.revalidateInterval && p.refreshToken != "")
            && (DueWork(cfg, p, now).AskResolver? <==>
                  && since < cfg.revalidateInterval && cfg.reresolveOnRevalidate
                  && 0 < p.resolveRetryAt && p.resolveRetryAt * SECOND <= now)
  {
  }

  /**
   What ends a session, and nothing
       else does: the provider's invalid_grant, or a resolution that no longer admits it. No
   other error of either provider, and no abandoned flight, signs anybody out.
   */
  lemma SignedOutExactly(cfg: Config, p: Payload, now: Time, shared: Shared)
    requires Fitting(DueWork(cfg, p, now), shared)
    ensures MaybeRevalidate(cfg, p, now, shared).SignedOut? <==>
              match DueWork(cfg, p, now)
              case Nothing => false
              case AskIdp =>
                shared == Failed(Retrieve("invalid_grant")) || (shared.Granted? && shared.reresolved == Some(Ended))
              case AskResolver => shared == Resolved(Ended)
  {
  }

  /** A failed grant is retried thirty seconds later, or half an interval when that is all there is to borrow. */
  lemma FailedGrantIsRetried(cfg: Config, p: Payload, now: Time, later: Time)
    requires cfg.revalidateInterval > 0 && p.refreshToken != "" && now >= cfg.revalidateInterval + SECOND
    ensures var wait := if cfg.revalidateInterval > 30 * SECOND then 30 * SECOND else cfg.revalidateInterval / 2;
            && (later >= now + wait ==> DueWork(cfg, BackedOff(cfg, p, now), later).AskIdp?)
            && (later <= now + wait - SECOND ==> !DueWork(cfg, BackedOff(cfg, p, now), later).AskIdp?)
  {
  }

  /**
   After a grant whose resolution failed softly, the resolver alone is asked again as long later, and the provider
   not before a full interval (each up to the second the stamps are cut to).
   */
  lemma SoftAnswerIsRetried(cfg: Config, p: Payload, now: Time, tokens: Token, aut: int, later: Time)
    requires cfg.revalidateInterval > 0 && cfg.reresolveOnRevalidate && now >= cfg.revalidateInterval + SECOND
    requires tokens.refresh != ""
    ensures var wait := if cfg.revalidateInterval > 30 * SECOND then 30 * SECOND else cfg.revalidateInterval / 2;
            var served := AfterGrant(cfg, p, now, Granted(tokens, aut, Some(Soft)));
            && served.Stamped?
            && (later <= now + wait - SECOND ==> DueWork(cfg, served.p, later).Nothing?)
            && (now + wait <= later <= now + cfg.revalidateInterval - SECOND ==>
                DueWork(cfg, served.p, later).AskResolver?)
            && (later >= now + cfg.revalidateInterval ==> DueWork(cfg, served.p, later).AskIdp?)
  {
  }

  /** A session without a refresh token is never asked about and never ended: it is kept until its own Exp. */
  lemma UnaskableSessionIsKept(cfg: Config, p: Payload, now: Time, shared: Shared)
    requires p.refreshToken == "" && p.resolveRetryAt == 0 && Fitting(DueWork(cfg, p, now), shared)
    ensures MaybeRevalidate(cfg, p, now, shared) == Kept(p)
  {
  }

  // ----- the same, on the record the handlers share -----

  class Revalidator {
    const cfg: Config

    constructor (cfg: Config)
      ensures this.cfg == cfg
    {
      this.cfg := cfg;
    }

    /** maybeRevalidate: `write` is whether the payload is written back, `signedOut` whether the cookies are cleared. */
    method MaybeRevalidateRecord(payload: SessionPayload, now: Time, shared: Shared)
      returns (write: bool, signedOut: bool)
      requires Fitting(DueWork(cfg, payload.Value(), now), shared)
      modifies payload
      ensures match MaybeRevalidate(cfg, old(payload.Value()), now, shared)
              case Kept(p) => !signedOut && !write && payload.Value() == p
              case Stamped(p) => !signedOut && write && payload.Value() == p
              case SignedOut => signedOut
    {
      if cfg.revalidateInterval <= 0 {
        return false, false;
      }
      var age := now - ValidationAnchor(cfg, payload.Value()) * SECOND;
      if age >= cfg.revalidateInterval {
        if payload.refreshToken == "" {
          return false, false;
        }
        signedOut := RevalidateAtIdp(payload, now, shared);
        return true, signedOut;
      }
      if ResolveRetryDue(cfg, payload.Value(), now) {
        write, signedOut := RetryResolution(payload, now, shared);
        return;
      }
      return false, false;
    }

    method RevalidateAtIdp(payload: SessionPayload, now: Time, shared: Shared) returns (signedOut: bool)
      requires cfg.revalidateInterval > 0 && !shared.Resolved?
      modifies payload
      ensures signedOut == AfterGrant(cfg, old(payload.Value()), now, shared).SignedOut?
      ensures !signedOut ==> Stamped(payload.Value()) == AfterGrant(cfg, old(payload.Value()), now, shared)
    {
      if shared.Failed? {
        if IsSessionRevoked(shared.err) {
          return true;
        }
        PersistBackoff(payload, now);
        return false;
      }
      TakeTokens(payload, shared.tokens, shared.aut);
      if shared.reresolved.Some? {
        match shared.reresolved.value {
          case Ended => return true;
          case Soft =>
            payload.lastValidated := Unix(now);
            payload.resolveRetryAt := Unix(now + TransportBackoff(cfg));
            return false;
          case Applied(user) =>
            ApplyResolutionTo(payload, user);
        }
      }
      payload.resolveRetryAt := 0;
      payload.lastValidated := Unix(now);
      payload.exp := Unix(now + cfg.sessionTTL);
      return false;
    }

    method TakeTokens(payload: SessionPayload, tokens: Token, aut: int)
      modifies payload
      ensures payload.Value() == WithGrant(old(payload.Value()), tokens, aut)
    {
      payload.accessToken := tokens.access;
      payload.accessTokenExp := Unix(tokens.expiry);
      if tokens.refresh != "" {
        payload.refreshToken := tokens.refresh;
      }
      payload.aut := MergeRefreshedAuthTime(payload.aut, aut);
    }

    method PersistBackoff(payload: SessionPayload, now: Time)
      requires cfg.revalidateInterval > 0
      modifies payload
      ensures payload.Value() == BackedOff(cfg, old(payload.Value()), now)
    {
      payload.lastValidated := Unix(now + (TransportBackoff(cfg) - cfg.revalidateInterval));
    }

    method RetryResolution(payload: SessionPayload, now: Time, shared: Shared) returns (write: bool, signedOut: bool)
      requires cfg.revalidateInterval > 0 && !shared.Granted?
      modifies payload
      ensures match AfterRetry(cfg, old(payload.Value()), now, shared)
              case Kept(p) => !signedOut && !write && payload.Value() == p
              case Stamped(p) => !signedOut && write && payload.Value() == p
              case SignedOut => signedOut
    {
      if shared.Failed? {
        return false, false;
      }
      match shared.outcome {
        case Ended => return false, true;
        case Soft =>
          payload.resolveRetryAt := Unix(now + TransportBackoff(cfg));
          return true, false;
        case Applied(user) =>
          ApplyResolutionTo(payload, user);
          payload.resolveRetryAt := 0;
          var allowed := payload.lastValidated + Seconds(cfg.sessionTTL);
          if allowed > payload.exp {
            payload.exp := allowed;
          }
          return true, false;
      }
    }
  }
}
