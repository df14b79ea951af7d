/** Silent identity reconciliation (sessionsync.go): the verdict of one sync callback. */
module SessionSync {
  import opened Wrappers
  import opened Clock
  import opened Identity
  import opened Payload
  import opened Config
  import opened Answers

  /** One callback, named by the first thing handleSyncCallback finds out about it. */
  datatype Callback =
    | FlowCookieProblem
    | IdpError(code: string)
    | StateMismatch
    | MissingCode
    | ExchangeFailed
    | NoSubject
    | Identified(browser: User, tokens: Option<Token>)

  datatype Verdict = Unchanged | Switched | SignedOut | NoSession | SyncError | NotApplicable

  const NO_SESSION_CODES: set<string> :=
    {"login_required", "interaction_required", "consent_required", "account_selection_required"}

  predicate IsSyncNoSessionError(code: string) {
    code in NO_SESSION_CODES
  }

  predicate SameIdentity(p: Payload, browser: User) {
    && p.profile.sub == browser.sub
    && (p.profile.sid != "" && browser.sessionId != "" ==> p.profile.sid == browser.sessionId)
  }

  /** A grant-minted session is compared on the subject alone. */
  predicate SyncSameIdentity(p: Payload, browser: User) {
    if IsGrantMinted(p) then p.profile.sub == browser.sub else SameIdentity(p, browser)
  }

  /** The payload a confirmed sync writes back. */
  function Confirmed(cfg: Config, p: Payload, now: Time, browser: User, tokens: Option<Token>): Payload {
    var stamped := p.(lastValidated := Unix(now), exp := Unix(now + cfg.sessionTTL));
    var grant := IsGrantMinted(p);
    var withTokens :=
      if cfg.retainTokens && tokens.Some? && !grant then
        stamped.(accessToken := tokens.value.access, accessTokenExp := Unix(tokens.value.expiry),
                 refreshToken := if tokens.value.refresh != "" then tokens.value.refresh else p.refreshToken)
      else stamped;
    if p.profile.sid == "" && !grant
    then withTokens.(profile := p.profile.(sid := browser.sessionId))
    else withTokens
  }

  predicate Readable(cell: Option<Payload>, now: Time) {
    cell.Some? && Unix(now) <= cell.value.exp
  }

  /** The verdict, and the session the browser holds afterwards. */
  function AfterCallback(cfg: Config, cell: Option<Payload>, now: Time, cb: Callback): (Verdict, Option<Payload>) {
    if cb.FlowCookieProblem? then (SyncError, cell)
    else if !Readable(cell, now) then (NoSession, cell)
    else
      var p := cell.value;
      match cb
      case IdpError(code) =>
        if !IsSyncNoSessionError(code) then (SyncError, cell)
        else if IsGrantMinted(p) then (NotApplicable, cell)
        else (SignedOut, None)
      case Identified(browser, tokens) =>
        if browser.sub == "" then (SyncError, cell)
        else if !SyncSameIdentity(p, browser) then (Switched, None)
        else (Unchanged, Some(Confirmed(cfg, p, now, browser, tokens)))
      case _ => (SyncError, cell)
  }

  /** handleSyncCallback on the mutable record; `clear` and `write` say what happens to the cookies. */
  method HandleSyncCallback(cfg: Config, payload: SessionPayload, now: Time, cb: Callback)
    returns (verdict: Verdict, clear: bool, write: bool)
    modifies payload
    ensures var (v, cell) := AfterCallback(cfg, Some(old(payload.Value())), now, cb);
            && verdict == v
            && clear == cell.None?
            && write == verdict.Unchanged?
            && (!clear ==> cell == Some(payload.Value()))
            && (!write ==> payload.Value() == old(payload.Value()))
  {
    clear, write := false, false;
    if cb.FlowCookieProblem? {
      return SyncError, false, false;
    }
    if Unix(now) > payload.exp {
      return NoSession, false, false;
    }
    if cb.IdpError? {
      if IsSyncNoSessionError(cb.code) {
        if payload.src == SOURCE_GRANT {
          return NotApplicable, false, false;
        }
        return SignedOut, true, false;
      }
      return SyncError, false, false;
    }
    if !cb.Identified? || cb.browser.sub == "" {
      return SyncError, false, false;
    }
    if !SyncSameIdentity(payload.Value(), cb.browser) {
      return Switched, true, false;
    }
    ConfirmSession(cfg, payload, now, cb.browser, cb.tokens);
    return Unchanged, false, true;
  }

  /** The re-stamp of a confirmed session. */
  method ConfirmSession(cfg: Config, payload: SessionPayload, now: Time, browser: User, tokens: Option<Token>)
    modifies payload
    ensures payload.Value() == Confirmed(cfg, old(payload.Value()), now, browser, tokens)
  {
    payload.lastValidated := Unix(now);
    payload.exp := Unix(now + cfg.sessionTTL);
    var grant := payload.src == SOURCE_GRANT;
    if cfg.retainTokens && tokens.Some? && !grant {
      payload.accessToken := tokens.value.access;
      payload.accessTokenExp := Unix(tokens.value.expiry);
      if tokens.value.refresh != "" {
        payload.refreshToken := tokens.value.refresh;
      }
    }
    if payload.profile.sid == "" && !grant {
      payload.profile := payload.profile.(sid := browser.sessionId);
    }
  }

  // ----- runs of callbacks -----

  datatype Tick = Tick(now: Time, cb: Callback)

  function RunSync(cfg: Config, cell: Option<Payload>, run: seq<Tick>): Option<Payload>
    decreases |run|
  {
    if run == [] then cell
    else RunSync(cfg, AfterCallback(cfg, cell, run[0].now, run[0].cb).1, run[1..])
  }

  /** The one reason a callback clears a session. */
  predicate Clears(p: Payload, now: Time, cb: Callback) {
    && Unix(now) <= p.exp
    && ( || (cb.IdpError? && IsSyncNoSessionError(cb.code) && !IsGrantMinted(p))
         || (cb.Identified? && cb.browser.sub != "" && !SyncSameIdentity(p, cb.browser)))
  }

  /** A callback clears the session exactly on an explicit no-session code or a verified mismatch. */
  lemma ClearsExactlyOnAVerdict(cfg: Config, p: Payload, now: Time, cb: Callback)
    ensures AfterCallback(cfg, Some(p), now, cb).1.None? <==> Clears(p, now, cb)
  {
  }

  /** What every sync leaves alone while the session lives. */
  predicate SyncKeeps(p: Payload, q: Payload) {
    && q.src == p.src && q.aut == p.aut && q.idToken == p.idToken && q.resolveRetryAt == p.resolveRetryAt
    && q.profile == p.profile.(sid := q.profile.sid)
    && (p.profile.sid != "" ==> q.profile.sid == p.profile.sid)
    && (IsGrantMinted(p) ==>
          && q.profile == p.profile
          && q.accessToken == p.accessToken && q.refreshToken == p.refreshToken && q.accessTokenExp == p.accessTokenExp)
  }

  /** No run of syncs creates a session; a surviving one keeps its person, source, org and sign-in. */
  lemma {:induction false} SyncNeverGrants(cfg: Config, cell: Option<Payload>, run: seq<Tick>)
    ensures cell.None? ==> RunSync(cfg, cell, run).None?
    ensures RunSync(cfg, cell, run).Some? ==> cell.Some? && SyncKeeps(cell.value, RunSync(cfg, cell, run).value)
    decreases |run|
  {
    if run != [] {
      SyncNeverGrants(cfg, AfterCallback(cfg, cell, run[0].now, run[0].cb).1, run[1..]);
    }
  }

  /**
   A recorded sign-in is compared from then on: once the `sid` is set, after any run of syncs the next
   readable callback of a different, known sign-in clears the session.
   */
  lemma RecordedSignInIsCompared(cfg: Config, p: Payload, run: seq<Tick>, now: Time, browser: User,
                                 tokens: Option<Token>)
    requires !IsGrantMinted(p) && p.profile.sid != ""
    requires browser.sub != "" && browser.sessionId !in {"", p.profile.sid}
    requires Readable(RunSync(cfg, Some(p), run), now)
    ensures AfterCallback(cfg, RunSync(cfg, Some(p), run), now, Identified(browser, tokens)) == (Switched, None)
  {
    SyncNeverGrants(cfg, Some(p), run);
  }

  /** A session without a sign-in records the first known one it is confirmed by, and keeps it through any later run. */
  lemma FirstSignInIsRecorded(cfg: Config, p: Payload, now: Time, browser: User, tokens: Option<Token>, run: seq<Tick>)
    requires !IsGrantMinted(p) && p.profile.sid == "" && Unix(now) <= p.exp
    requires browser.sub == p.profile.sub != "" && browser.sessionId != ""
    ensures var confirmed := AfterCallback(cfg, Some(p), now, Identified(browser, tokens)).1;
            var last := RunSync(cfg, confirmed, run);
            last.Some? ==> last.value.profile.sid == browser.sessionId
  {
    SyncNeverGrants(cfg, AfterCallback(cfg, Some(p), now, Identified(browser, tokens)).1, run);
  }

  // ----- the verdicts, exactly -----

  /**
   What a verified identity does. The same person in the same sign-in, as far as both sides name one (a grant-minted
   session names none), renews the session for a full TTL, with the exchange's tokens unless it is
   grant-minted; anybody else ends it.
   */
  lemma VerdictOnAnIdentity(cfg: Config, p: Payload, now: Time, browser: User, tokens: Option<Token>)
    requires Unix(now) <= p.exp && browser.sub != ""
    ensures var (verdict, cell) := AfterCallback(cfg, Some(p), now, Identified(browser, tokens));
            var same := browser.sub == p.profile.sub
                        && (p.src == "grant" || p.profile.sid == "" || browser.sessionId in {"", p.profile.sid});
            if !same then verdict.Switched? && cell.None?
            else
              && verdict.Unchanged? && cell.Some?
              && cell.value.lastValidated == Unix(now) && cell.value.exp == Unix(now + cfg.sessionTTL)
              && (if cfg.retainTokens && tokens.Some? && p.src != "grant" then
                    && cell.value.accessToken == tokens.value.access
                    && cell.value.accessTokenExp == Unix(tokens.value.expiry)
                    && cell.value.refreshToken
                       == (if tokens.value.refresh == "" then p.refreshToken else tokens.value.refresh)
                  else
                    && cell.value.accessToken == p.accessToken && cell.value.refreshToken == p.refreshToken
                    && cell.value.accessTokenExp == p.accessTokenExp)
  {
  }

  /** What an error does: four codes mean no session at the provider; every other one is no verdict. */
  lemma VerdictOnACode(cfg: Config, p: Payload, now: Time, code: string)
    requires Unix(now) <= p.exp
    ensures AfterCallback(cfg, Some(p), now, IdpError(code)) ==
            if code == "login_required" || code == "interaction_required"
               || code == "consent_required" || code == "account_selection_required"
            then (if p.src == "grant" then (NotApplicable, Some(p)) else (SignedOut, None))
            else (SyncError, Some(p))
  {
  }

  /** Everything that goes wrong before the provider has spoken leaves the session alone. */
  lemma TroubleLeavesTheSession(cfg: Config, cell: Option<Payload>, now: Time, cb: Callback)
    requires !cb.IdpError? && (cb.Identified? ==> cb.browser.sub == "")
    ensures var (verdict, after) := AfterCallback(cfg, cell, now, cb);
            after == cell && verdict in {SyncError, NoSession}
  {
  }
}
