/**
 Whole runs of one browser's session: logins, requests through the session middleware with
 whatever their handlers do, sync callbacks and the passage of time. Every cookie write
 persists and the clock never runs backwards. The log remembers what the provider was asked.
 */
module SessionRuns {
  import opened Wrappers
  import opened Clock
  import opened Identity
  import opened Payload
  import opened Config
  import opened Answers
  import opened Admission
  import opened StepUp
  import opened Revalidate
  import opened Handlers
  import Flights
  import SessionSync

  /** A revalidation grant: when its request began and whether the provider granted it. */
  datatype Ask = Ask(at: Time, ok: bool)

  datatype Log = Log(
    lastOk: Time,              // the last login, successful grant or confirmed sync of this session
    backedOff: bool,           // a fail-open grant since then
    stretched: bool,           // a resolver retry applied since then, after such a backoff
    asks: seq<Ask>,            // all revalidation grants
    grantKeys: seq<int>,       // LastValidated of the cookie each of them was made for
    retryKeys: seq<(int, int)>, // (LastValidated, ResolveRetryAt) of each answered resolver retry
    loginAut: int,             // auth_time the session was minted with
    refreshed: seq<int>)       // verified auth_times of the grants since

  datatype World = World(now: Time, cell: Option<Payload>, idp: Idp, log: Log)

  datatype Event =
    | Tick(elapsed: nat)
    | Login(idToken: string, authTime: Option<Time>, tokens: Option<Token>, user: User)
    | Issue(idToken: string, user: User)
    | Visit(shared: Shared, ops: seq<Op>)
    | Sync(cb: SessionSync.Callback)
    | Logout

  function Start(now: Time): World {
    World(now, None, Idp({}, {}), Log(now, false, false, [], [], [], 0, []))
  }

  /** The cookie decrypts and has not passed its own expiry. */
  predicate Live(w: World) {
    w.cell.Some? && Unix(w.now) <= w.cell.value.exp
  }

  function NewLog(w: World, aut: int): Log {
    w.log.(lastOk := w.now, backedOff := false, stretched := false, loginAut := aut, refreshed := [])
  }

  function Minted(idp: Idp, tokens: Option<Token>): Idp {
    if tokens.Some? && tokens.value.refresh != "" then idp.(live := idp.live + {tokens.value.refresh}) else idp
  }

  predicate MayMint(idp: Idp, tokens: Option<Token>) {
    tokens.Some? ==> tokens.value.refresh !in idp.spent
  }

  /** IssueSession: no tokens, and the source that sync must recognise. */
  function IssuedSession(cfg: Config, now: Time, idToken: string, user: User): Payload {
    Payload(ProfileOf(user), idToken, Unix(now + cfg.sessionTTL), "", "", 0, Unix(now), 0, SOURCE_GRANT,
        UnixOrZero(user.authTime))
  }

  function LogWork(w: World, p: Payload, work: Work, shared: Shared): Log {
    match work
    case Nothing => w.log
    case AskIdp =>
      var log := w.log.(asks := w.log.asks + [Ask(w.now, shared.Granted?)],
          grantKeys := w.log.grantKeys + [p.lastValidated]);
      if shared.Granted? then
        log.(lastOk := w.now, backedOff := false, stretched := false, refreshed := w.log.refreshed + [shared.aut])
      else log.(backedOff := true)
    case AskResolver =>
      if shared.Resolved? then
        w.log.(retryKeys := w.log.retryKeys + [(p.lastValidated, p.resolveRetryAt)],
               stretched := w.log.stretched || (shared.outcome.Applied? && w.log.backedOff))
      else w.log
  }

  function IdpAfterWork(w: World, p: Payload, work: Work, shared: Shared): Idp {
    if work.AskIdp? && shared.Granted? then AfterRefresh(w.idp, p.refreshToken, shared.tokens.refresh) else w.idp
  }

  /** What the providers can answer, given what is asked of them. */
  predicate Possible(cfg: Config, w: World, e: Event) {
    match e
    case Tick(_) => true
    case Login(_, _, tokens, _) => cfg.retainTokens ==> MayMint(w.idp, tokens)
    case Issue(_, _) => true
    case Sync(cb) => cb.Identified? && cfg.retainTokens ==> MayMint(w.idp, cb.tokens)
    case Logout => true
    case Visit(shared, ops) =>
      Live(w) ==>
        var p := w.cell.value;
        var work := DueWork(cfg, p, w.now);
        && Fitting(work, shared)
        && (work.AskIdp? && shared.Granted? ==>
              MayAnswer(w.idp, p.refreshToken, shared.tokens.refresh)
              && (shared.reresolved.Some? <==> cfg.reresolveOnRevalidate))
        && (match MaybeRevalidate(cfg, p, w.now, shared)
            case SignedOut => true
            case Kept(q) => PossibleOps(cfg, Scope(q, IdpAfterWork(w, p, work, shared)), ops)
            case Stamped(q) => PossibleOps(cfg, Scope(q, IdpAfterWork(w, p, work, shared)), ops))
  }

  /** One request through the middleware: revalidation, then the handler on the payload it was served with. */
  function AfterVisit(cfg: Config, w: World, shared: Shared, ops: seq<Op>): World
    requires Live(w) && Fitting(DueWork(cfg, w.cell.value, w.now), shared)
  {
    var p := w.cell.value;
    var work := DueWork(cfg, p, w.now);
    var idp := IdpAfterWork(w, p, work, shared);
    var log := LogWork(w, p, work, shared);
    match MaybeRevalidate(cfg, p, w.now, shared)
    case SignedOut => World(w.now, None, idp, log)
    case Kept(q) => var r := RunOps(cfg, Scope(q, idp), ops); World(w.now, Some(r.payload), r.idp, log)
    case Stamped(q) => var r := RunOps(cfg, Scope(q, idp), ops); World(w.now, Some(r.payload), r.idp, log)
  }

  function AfterSync(cfg: Config, w: World, cb: SessionSync.Callback): World {
    var (verdict, cell) := SessionSync.AfterCallback(cfg, w.cell, w.now, cb);
    var adopts := verdict.Unchanged? && cfg.retainTokens && !IsGrantMinted(w.cell.value);
    World(w.now, cell,
          if adopts then Minted(w.idp, cb.tokens) else w.idp,
          if verdict.Unchanged? then w.log.(lastOk := w.now, backedOff := false, stretched := false) else w.log)
  }

  function Step(cfg: Config, w: World, e: Event): World
    requires Possible(cfg, w, e)
  {
    match e
    case Tick(elapsed) => w.(now := w.now + elapsed)
    case Login(idToken, authTime, tokens, user) =>
      World(w.now, Some(NewSession(cfg, w.now, idToken, authTime, tokens, user)),
            if cfg.retainTokens then Minted(w.idp, tokens) else w.idp, NewLog(w, UnixOrZero(authTime)))
    case Issue(idToken, user) =>
      World(w.now, Some(IssuedSession(cfg, w.now, idToken, user)), w.idp, NewLog(w, UnixOrZero(user.authTime)))
    case Visit(shared, ops) => if Live(w) then AfterVisit(cfg, w, shared, ops) else w
    case Sync(cb) => AfterSync(cfg, w, cb)
    case Logout => w.(cell := None)
  }

  /** The handler calls of a visit rotate a refresh token only together with a new access token. */
  predicate VisitMintsAccess(cfg: Config, w: World, e: Event)
    requires Possible(cfg, w, e)
  {
    e.Visit? && Live(w) && Middle(cfg, w, e.shared).Some? ==>
      var p := w.cell.value;
      AllMintAccess(cfg, Scope(Middle(cfg, w, e.shared).value,
          IdpAfterWork(w, p, DueWork(cfg, p, w.now), e.shared)), e.ops)
  }

  predicate PossibleRun(cfg: Config, w: World, run: seq<Event>)
    decreases |run|
  {
    run != [] ==> Possible(cfg, w, run[0]) && PossibleRun(cfg, Step(cfg, w, run[0]), run[1..])
  }

  function Run(cfg: Config, w: World, run: seq<Event>): World
    requires PossibleRun(cfg, w, run)
    decreases |run|
  {
    if run == [] then w else Run(cfg, Step(cfg, w, run[0]), run[1..])
  }

  /** Revalidation is on, and the clock starts late enough after 1970 for every stamp to be positive. */
  ghost predicate Running(cfg: Config, start: Time) {
    Accepted(cfg) && cfg.revalidateInterval > 0 && start >= cfg.revalidateInterval + SECOND
  }

  /** The payload the middleware hands to the handler. */
  function Middle(cfg: Config, w: World, shared: Shared): Option<Payload>
    requires Live(w) && Fitting(DueWork(cfg, w.cell.value, w.now), shared)
  {
    match MaybeRevalidate(cfg, w.cell.value, w.now, shared)
    case SignedOut => None
    case Kept(q) => Some(q)
    case Stamped(q) => Some(q)
  }

  /** After a visit the floor fields are those the middleware left. */
  lemma VisitFloor(cfg: Config, w: World, shared: Shared, ops: seq<Op>)
    requires Live(w) && Fitting(DueWork(cfg, w.cell.value, w.now), shared)
    ensures var next, middle := AfterVisit(cfg, w, shared, ops), Middle(cfg, w, shared);
            && next.now == w.now
            && next.log == LogWork(w, w.cell.value, DueWork(cfg, w.cell.value, w.now), shared)
            && (next.cell.Some? <==> middle.Some?)
            && (middle.Some? ==> SameFloor(next.cell.value, middle.value))
  {
    var p := w.cell.value;
    var idp := IdpAfterWork(w, p, DueWork(cfg, p, w.now), shared);
    if Middle(cfg, w, shared).Some? {
      HandlersKeepTheFloor(cfg, Scope(Middle(cfg, w, shared).value, idp), ops);
    }
  }

  // ----- stamps and the session's life -----

  /** No stamp lies in the future and no session outlives a full TTL from now. */
  ghost predicate StampsBounded(cfg: Config, w: World) {
    && w.log.lastOk <= w.now
    && w.now >= cfg.revalidateInterval + SECOND
    && (w.cell.Some? ==>
          && 0 < w.cell.value.lastValidated
          && w.cell.value.lastValidated * SECOND <= w.now
          && w.cell.value.exp * SECOND <= w.now + cfg.sessionTTL)
  }

  lemma StampsStayBounded(cfg: Config, w: World, e: Event)
    requires Accepted(cfg) && cfg.revalidateInterval > 0
    requires StampsBounded(cfg, w) && Possible(cfg, w, e)
    ensures StampsBounded(cfg, Step(cfg, w, e))
  {
    if e.Visit? && Live(w) {
      VisitFloor(cfg, w, e.shared, e.ops);
    }
  }

  /** LastValidated is the last success, except that a backoff since then has moved it later. */
  ghost predicate Anchored(w: World) {
    w.cell.Some? ==>
      if w.log.backedOff then w.cell.value.lastValidated >= Unix(w.log.lastOk)
      else w.cell.value.lastValidated == Unix(w.log.lastOk)
  }

  /** Exp is within a TTL of the last success unless a retry stretched it from a backoff's anchor. */
  ghost predicate LifeBounded(cfg: Config, w: World) {
    w.cell.Some? && !w.log.stretched ==> w.cell.value.exp * SECOND <= w.log.lastOk + cfg.sessionTTL
  }

  lemma AnchorStays(cfg: Config, w: World, e: Event)
    requires Accepted(cfg) && cfg.revalidateInterval > 0
    requires StampsBounded(cfg, w) && Anchored(w) && Possible(cfg, w, e)
    ensures Anchored(Step(cfg, w, e))
  {
    if e.Visit? && Live(w) {
      VisitFloor(cfg, w, e.shared, e.ops);
    }
  }

  lemma LifeStaysBounded(cfg: Config, w: World, e: Event)
    requires Accepted(cfg) && cfg.revalidateInterval > 0
    requires StampsBounded(cfg, w) && Anchored(w) && LifeBounded(cfg, w) && Possible(cfg, w, e)
    ensures LifeBounded(cfg, Step(cfg, w, e))
  {
    if e.Visit? && Live(w) {
      VisitFloor(cfg, w, e.shared, e.ops);
    }
  }

  /** Whole-second TTLs and an interval of at least two seconds. */
  predicate Coarse(cfg: Config) {
    cfg.revalidateInterval >= 2 * SECOND && cfg.sessionTTL % SECOND == 0
  }

  /** The converse: a backoff really moves the anchor, and a stretched Exp really passes the bound. */
  ghost predicate StretchedExceeds(cfg: Config, w: World) {
    w.cell.Some? ==>
      && (w.log.backedOff ==> w.cell.value.lastValidated > Unix(w.log.lastOk))
      && (w.log.stretched ==> w.log.backedOff && w.cell.value.exp * SECOND > w.log.lastOk + cfg.sessionTTL)
  }

  lemma StretchStaysExact(cfg: Config, w: World, e: Event)
    requires Accepted(cfg) && cfg.revalidateInterval > 0 && Coarse(cfg)
    requires StampsBounded(cfg, w) && Anchored(w) && StretchedExceeds(cfg, w) && Possible(cfg, w, e)
    ensures StretchedExceeds(cfg, Step(cfg, w, e))
  {
    if e.Visit? && Live(w) {
      VisitFloor(cfg, w, e.shared, e.ops);
    }
  }

  // ----- how often the provider is asked -----

  /** The time an ask buys: the interval after a granted one, the backoff after a fail-open one. */
  function Gap(cfg: Config, a: Ask): (g: Duration)
    requires cfg.revalidateInterval > 0
    ensures 0 <= g <= cfg.revalidateInterval
  {
    if a.ok then cfg.revalidateInterval else TransportBackoff(cfg)
  }

  ghost predicate Spaced(cfg: Config, asks: seq<Ask>)
    requires cfg.revalidateInterval > 0
  {
    forall i :: 0 < i < |asks| ==> asks[i].at - asks[i - 1].at > Gap(cfg, asks[i - 1]) - SECOND
  }

  /** The cookie's anchor already accounts for the last ask. */
  ghost predicate Paced(cfg: Config, w: World)
    requires cfg.revalidateInterval > 0
  {
    w.log.asks != [] ==>
      var last := w.log.asks[|w.log.asks| - 1];
      && last.at <= w.now
      && (w.cell.Some? ==>
            w.cell.value.lastValidated * SECOND > last.at + Gap(cfg, last) - cfg.revalidateInterval - SECOND)
  }

  lemma PaceStays(cfg: Config, w: World, e: Event)
    requires Accepted(cfg) && cfg.revalidateInterval > 0
    requires StampsBounded(cfg, w) && Paced(cfg, w) && Possible(cfg, w, e)
    ensures Paced(cfg, Step(cfg, w, e))
  {
    if e.Visit? && Live(w) {
      VisitFloor(cfg, w, e.shared, e.ops);
    }
  }

  lemma AsksStaySpaced(cfg: Config, w: World, e: Event)
    requires Accepted(cfg) && cfg.revalidateInterval > 0
    requires StampsBounded(cfg, w) && Paced(cfg, w) && Spaced(cfg, w.log.asks) && Possible(cfg, w, e)
    ensures Spaced(cfg, Step(cfg, w, e).log.asks)
  {
    if e.Visit? && Live(w) {
      VisitFloor(cfg, w, e.shared, e.ops);
    }
  }

  /** Spaced asks i..j that each bought at least `gap` fit only so often into a window. */
  lemma {:induction false} AsksAreApart(cfg: Config, asks: seq<Ask>, i: nat, j: nat, gap: Duration)
    requires cfg.revalidateInterval > 0 && Spaced(cfg, asks) && i <= j < |asks|
    requires forall k :: i <= k < j ==> Gap(cfg, asks[k]) >= gap
    ensures (j - i) * (gap - SECOND) <= asks[j].at - asks[i].at
    decreases j - i
  {
    if i < j {
      AsksAreApart(cfg, asks, i, j - 1, gap);
      assert (j - i) * (gap - SECOND) == (j - 1 - i) * (gap - SECOND) + (gap - SECOND);
    }
  }

  // ----- one flight key per due step -----

  /** The anchors of the grants made so far rise, and the cookie's own anchor is above them all. */
  ghost predicate GrantKeysFresh(w: World) {
    var keys := w.log.grantKeys;
    && (forall i, j :: 0 <= i < j < |keys| ==> keys[i] < keys[j])
    && (forall i :: 0 <= i < |keys| ==>
          keys[i] * SECOND + SECOND <= w.now && (w.cell.Some? ==> keys[i] < w.cell.value.lastValidated))
  }

  lemma GrantKeysStayFresh(cfg: Config, w: World, e: Event)
    requires Accepted(cfg) && cfg.revalidateInterval >= 2 * SECOND
    requires StampsBounded(cfg, w) && GrantKeysFresh(w) && Possible(cfg, w, e)
    ensures GrantKeysFresh(Step(cfg, w, e))
  {
    if e.Visit? && Live(w) {
      VisitFloor(cfg, w, e.shared, e.ops);
    }
  }

  /** An answered retry lies before the session's current anchor, or before its pending retry. */
  predicate Behind(key: (int, int), p: Payload) {
    key.0 < p.lastValidated || (key.0 == p.lastValidated && (p.resolveRetryAt == 0 || key.1 < p.resolveRetryAt))
  }

  ghost predicate RetryKeysFresh(w: World) {
    var retries := w.log.retryKeys;
    && (forall i, j :: 0 <= i < j < |retries| ==> retries[i] != retries[j])
    && (forall i :: 0 <= i < |retries| ==>
        retries[i].0 * SECOND <= w.now && (w.cell.Some? ==> Behind(retries[i], w.cell.value)))
  }

  lemma RetryKeysStayFresh(cfg: Config, w: World, e: Event)
    requires Accepted(cfg) && cfg.revalidateInterval >= 2 * SECOND
    requires StampsBounded(cfg, w) && RetryKeysFresh(w) && Possible(cfg, w, e)
    ensures RetryKeysFresh(Step(cfg, w, e))
  {
    if e.Visit? && Live(w) {
      VisitFloor(cfg, w, e.shared, e.ops);
    }
  }

  /** Each due step that is answered strictly moves the anchor its key was made from. */
  lemma DueStepsMoveTheirKey(cfg: Config, w: World, shared: Shared, ops: seq<Op>)
    requires Accepted(cfg) && cfg.revalidateInterval >= 2 * SECOND
    requires StampsBounded(cfg, w) && Live(w) && Fitting(DueWork(cfg, w.cell.value, w.now), shared)
    ensures var p, next := w.cell.value, AfterVisit(cfg, w, shared, ops).cell;
            next.Some? ==>
              match DueWork(cfg, p, w.now)
              case Nothing => next.value.lastValidated == p.lastValidated
                  && next.value.resolveRetryAt == p.resolveRetryAt
              case AskIdp => next.value.lastValidated > p.lastValidated
              case AskResolver =>
                && next.value.lastValidated == p.lastValidated
                && (shared.Resolved? && shared.outcome.Soft? ==> next.value.resolveRetryAt > p.resolveRetryAt)
  {
    VisitFloor(cfg, w, shared, ops);
  }

  // ----- the refresh token in the cookie is one the provider accepts -----

  ghost predicate TokensAgree(w: World) {
    Sound(w.idp) && (w.cell.Some? ==> HoldsLiveToken(w.idp, w.cell.value))
  }

  lemma TokensStayInAgreement(cfg: Config, w: World, e: Event)
    requires Accepted(cfg) && cfg.revalidateInterval > 0
    requires TokensAgree(w) && Possible(cfg, w, e) && VisitMintsAccess(cfg, w, e)
    ensures TokensAgree(Step(cfg, w, e))
    ensures (e.Visit? || e.Sync? || e.Tick?) && w.cell.Some? && w.cell.value.refreshToken != ""
            && Step(cfg, w, e).cell.Some?
            ==> Step(cfg, w, e).cell.value.refreshToken != ""
  {
    if e.Visit? && Live(w) {
      var p := w.cell.value;
      var idp := IdpAfterWork(w, p, DueWork(cfg, p, w.now), e.shared);
      var middle := Middle(cfg, w, e.shared);
      if middle.Some? {
        assert HoldsLiveToken(idp, middle.value);
        HandlersKeepTheLiveToken(cfg, Scope(middle.value, idp), e.ops);
      }
    }
  }

  // ----- auth_time -----

  ghost predicate AuthTimeIsEarliest(w: World) {
    w.cell.Some? ==> w.cell.value.aut == MergeAll(w.log.loginAut, w.log.refreshed)
  }

  lemma AuthTimeStaysEarliest(cfg: Config, w: World, e: Event)
    requires Accepted(cfg) && cfg.revalidateInterval > 0
    requires AuthTimeIsEarliest(w) && Possible(cfg, w, e)
    ensures AuthTimeIsEarliest(Step(cfg, w, e))
  {
    if e.Visit? && Live(w) {
      VisitFloor(cfg, w, e.shared, e.ops);
      if e.shared.Granted? {
        assert (w.log.refreshed + [e.shared.aut])[..|w.log.refreshed|] == w.log.refreshed;
      }
    }
  }

  // ----- every run -----

  /** Everything the steps keep. */
  ghost predicate Inv(cfg: Config, w: World)
    requires cfg.revalidateInterval > 0
  {
    && StampsBounded(cfg, w) && Anchored(w) && LifeBounded(cfg, w)
    && Spaced(cfg, w.log.asks) && Paced(cfg, w)
    && AuthTimeIsEarliest(w)
    && (Coarse(cfg) ==> StretchedExceeds(cfg, w))
    && (cfg.revalidateInterval >= 2 * SECOND ==> GrantKeysFresh(w) && RetryKeysFresh(w))
  }

  lemma StepKeepsInv(cfg: Config, w: World, e: Event)
    requires Accepted(cfg) && cfg.revalidateInterval > 0
    requires Inv(cfg, w) && Possible(cfg, w, e)
    ensures Inv(cfg, Step(cfg, w, e))
  {
    StampsStayBounded(cfg, w, e);
    AnchorStays(cfg, w, e);
    LifeStaysBounded(cfg, w, e);
    AsksStaySpaced(cfg, w, e);
    PaceStays(cfg, w, e);
    AuthTimeStaysEarliest(cfg, w, e);
    if Coarse(cfg) {
      StretchStaysExact(cfg, w, e);
    }
    if cfg.revalidateInterval >= 2 * SECOND {
      GrantKeysStayFresh(cfg, w, e);
      RetryKeysStayFresh(cfg, w, e);
    }
  }

  lemma {:induction false} RunKeepsInv(cfg: Config, w: World, run: seq<Event>)
    requires Accepted(cfg) && cfg.revalidateInterval > 0
    requires Inv(cfg, w) && PossibleRun(cfg, w, run)
    ensures Inv(cfg, Run(cfg, w, run))
    decreases |run|
  {
    if run != [] {
      StepKeepsInv(cfg, w, run[0]);
      RunKeepsInv(cfg, Step(cfg, w, run[0]), run[1..]);
    }
  }

  lemma EveryRunKeepsInv(cfg: Config, start: Time, run: seq<Event>)
    requires Running(cfg, start) && PossibleRun(cfg, Start(start), run)
    ensures Inv(cfg, Run(cfg, Start(start), run))
  {
    RunKeepsInv(cfg, Start(start), run);
  }

  // ----- when the bound fails, read off the events -----

  /** The event is an answer of the provider for this session: a login, a granted check or a confirmed sync. */
  predicate Succeeds(cfg: Config, w: World, e: Event) {
    || e.Login? || e.Issue?
    || (e.Visit? && Live(w) && DueWork(cfg, w.cell.value, w.now).AskIdp? && e.shared.Granted?)
    || (e.Sync? && SessionSync.AfterCallback(cfg, w.cell, w.now, e.cb).0.Unchanged?)
  }

  /** The event is a grant that failed. */
  predicate FailsOpen(cfg: Config, w: World, e: Event) {
    e.Visit? && Live(w) && DueWork(cfg, w.cell.value, w.now).AskIdp? && !e.shared.Granted?
  }

  /** The event is a resolver retry whose answer is applied. */
  predicate AppliesRetry(cfg: Config, w: World, e: Event) {
    e.Visit? && Live(w) && DueWork(cfg, w.cell.value, w.now).AskResolver? && e.shared.Resolved?
        && e.shared.outcome.Applied?
  }

  predicate NoSuccess(cfg: Config, w: World, run: seq<Event>)
    requires PossibleRun(cfg, w, run)
    decreases |run|
  {
    run != [] ==> !Succeeds(cfg, w, run[0]) && NoSuccess(cfg, Step(cfg, w, run[0]), run[1..])
  }

  predicate RetryIsApplied(cfg: Config, w: World, run: seq<Event>)
    requires PossibleRun(cfg, w, run)
    decreases |run|
  {
    run != [] && (AppliesRetry(cfg, w, run[0]) || RetryIsApplied(cfg, Step(cfg, w, run[0]), run[1..]))
  }

  /** Somewhere in the run a grant fails, a resolver retry is applied after it, and nothing succeeds any more. */
  predicate RetryAfterBackoff(cfg: Config, w: World, run: seq<Event>)
    requires PossibleRun(cfg, w, run)
    decreases |run|
  {
    run != [] &&
      var next := Step(cfg, w, run[0]);
      || (FailsOpen(cfg, w, run[0]) && RetryIsApplied(cfg, next, run[1..]) && NoSuccess(cfg, next, run[1..]))
      || RetryAfterBackoff(cfg, next, run[1..])
  }

  /** What one event does to the history. */
  lemma HistoryStep(cfg: Config, w: World, e: Event)
    requires Possible(cfg, w, e)
    ensures var log := Step(cfg, w, e).log;
            if Succeeds(cfg, w, e) then !log.backedOff && !log.stretched
            else
              && (log.backedOff <==> w.log.backedOff || FailsOpen(cfg, w, e))
              && (log.stretched <==> w.log.stretched || (w.log.backedOff && AppliesRetry(cfg, w, e)))
  {
    if e.Visit? && Live(w) {
      VisitFloor(cfg, w, e.shared, e.ops);
    }
  }

  /** The history of a run in terms of its events. */
  lemma {:induction false} StretchedExactly(cfg: Config, w: World, run: seq<Event>)
    requires PossibleRun(cfg, w, run)
    ensures Run(cfg, w, run).log.stretched <==>
              || RetryAfterBackoff(cfg, w, run)
              || (NoSuccess(cfg, w, run) && (w.log.stretched || (w.log.backedOff && RetryIsApplied(cfg, w, run))))
    decreases |run|
  {
    if run != [] {
      HistoryStep(cfg, w, run[0]);
      StretchedExactly(cfg, Step(cfg, w, run[0]), run[1..]);
    }
  }

  /**
   The life bound over whole runs. LastValidated is never in the future and Exp never passes now plus
   TTL. Exp lies within a TTL of the last successful interaction unless a resolver retry was applied
   after a grant that failed since then; with whole-second TTLs and an interval of at least two seconds it
   then never does.
   */
  lemma LifeBound(cfg: Config, start: Time, run: seq<Event>)
    requires Running(cfg, start) && PossibleRun(cfg, Start(start), run)
    requires Run(cfg, Start(start), run).cell.Some?
    ensures var w := Run(cfg, Start(start), run);
            var p := w.cell.value;
            var bounded := p.exp * SECOND <= w.log.lastOk + cfg.sessionTTL;
            && p.lastValidated * SECOND <= w.now
            && p.exp * SECOND <= w.now + cfg.sessionTTL
            && (!RetryAfterBackoff(cfg, Start(start), run) ==> bounded)
            && (Coarse(cfg) ==> (bounded <==> !RetryAfterBackoff(cfg, Start(start), run)))
  {
    EveryRunKeepsInv(cfg, start, run);
    StretchedExactly(cfg, Start(start), run);
  }

  /** No fail-open and no soft-failed answer changes Exp, whatever the handler then does. */
  lemma OutagesGiveNoLife(cfg: Config, w: World, shared: Shared, ops: seq<Op>)
    requires Live(w) && Fitting(DueWork(cfg, w.cell.value, w.now), shared)
    requires || shared.Failed?
             || (shared.Granted? && shared.reresolved == Some(Soft))
             || (shared.Resolved? && shared.outcome.Soft?)
    ensures var next := AfterVisit(cfg, w, shared, ops).cell;
            next.Some? ==> next.value.exp == w.cell.value.exp
  {
    VisitFloor(cfg, w, shared, ops);
  }

  /** A request on which a provider is out, or the passing of time. */
  predicate Outage(e: Event) {
    || e.Tick?
    || (e.Visit? && (e.shared.Failed?
                     || (e.shared.Granted? && e.shared.reresolved == Some(Soft))
                     || (e.shared.Resolved? && e.shared.outcome.Soft?)))
  }

  /** However long an outage of either provider lasts, and whatever the handlers do, the session gains no life. */
  lemma {:induction false} OutageRunsGiveNoLife(cfg: Config, w: World, run: seq<Event>)
    requires PossibleRun(cfg, w, run) && forall i :: 0 <= i < |run| ==> Outage(run[i])
    ensures var last := Run(cfg, w, run).cell;
            last.Some? ==> w.cell.Some? && last.value.exp == w.cell.value.exp
    decreases |run|
  {
    if run != [] {
      var e := run[0];
      if e.Visit? && Live(w) {
        OutagesGiveNoLife(cfg, w, e.shared, e.ops);
      }
      OutageRunsGiveNoLife(cfg, Step(cfg, w, e), run[1..]);
    }
  }

  /** No grant fails open while a resolver retry is pending. */
  predicate NoBackoffWhilePending(cfg: Config, w: World, run: seq<Event>)
    requires PossibleRun(cfg, w, run)
    decreases |run|
  {
    run != [] ==>
      && (run[0].Visit? && Live(w) && DueWork(cfg, w.cell.value, w.now).AskIdp? && run[0].shared.Failed? ==>
            w.cell.value.resolveRetryAt <= 0)
      && NoBackoffWhilePending(cfg, Step(cfg, w, run[0]), run[1..])
  }

  ghost predicate NothingPendingAfterBackoff(w: World) {
    !w.log.stretched && (w.cell.Some? && w.log.backedOff ==> w.cell.value.resolveRetryAt <= 0)
  }

  lemma {:induction false} GuardedRunsDoNotStretch(cfg: Config, w: World, run: seq<Event>)
    requires Accepted(cfg) && cfg.revalidateInterval > 0
    requires PossibleRun(cfg, w, run) && NoBackoffWhilePending(cfg, w, run)
    requires NothingPendingAfterBackoff(w)
    ensures NothingPendingAfterBackoff(Run(cfg, w, run))
    decreases |run|
  {
    if run != [] {
      var e := run[0];
      if e.Visit? && Live(w) {
        VisitFloor(cfg, w, e.shared, e.ops);
      }
      GuardedRunsDoNotStretch(cfg, Step(cfg, w, e), run[1..]);
    }
  }

  // A one-hour session checked every five minutes.
  const HOURLY: Config := Config("s", 3600 * SECOND, true, 300 * SECOND, true, false, true)

  const SOMEONE: User := User("u", "", true, "", "o", [], map[], [], "", None, None)

  /**
   The run behind the guard. At 1300 s the provider grants and the resolver fails. At 1600 s the
   provider is down, and the resolver, asked again by the next request, answers.
   */
  const OVERLONG_RUN: seq<Event> := [
    Login("", None, Some(Token("a0", "r0", 0)), SOMEONE),
    Tick(300 * SECOND),
    Visit(Granted(Token("a1", "r1", 0), 0, Some(Soft)), []),
    Tick(300 * SECOND),
    Visit(Failed(Transport), []),
    Visit(Resolved(Applied(SOMEONE)), [])]

  lemma {:induction false} RunAppend(cfg: Config, w: World, front: seq<Event>, last: Event)
    requires PossibleRun(cfg, w, front) && Possible(cfg, Run(cfg, w, front), last)
    ensures PossibleRun(cfg, w, front + [last])
    ensures Run(cfg, w, front + [last]) == Step(cfg, Run(cfg, w, front), last)
    decreases |front|
  {
    if front == [] {
      assert [last][1..] == [];
    } else {
      RunAppend(cfg, Step(cfg, w, front[0]), front[1..], last);
      assert (front + [last])[1..] == front[1..] + [last];
    }
  }

  /** The overlong run up to the resolver's failure: the grant is recorded, its retry is due at 1330 s. */
  lemma ResolverOutageBegins()
    ensures PossibleRun(HOURLY, Start(1000 * SECOND), OVERLONG_RUN[..3])
    ensures var w := Run(HOURLY, Start(1000 * SECOND), OVERLONG_RUN[..3]);
            && w.now == w.log.lastOk == 1300 * SECOND && !w.log.backedOff
            && w.cell == Some(Payload(ProfileOf(SOMEONE), "", 4600, "a1", "r1", 0, 1300, 1330, "", 0))
  {
    var w0, r := Start(1000 * SECOND), OVERLONG_RUN;
    RunAppend(HOURLY, w0, [], r[0]);
    assert r[..1] == [] + [r[0]];
    RunAppend(HOURLY, w0, r[..1], r[1]);
    assert r[..2] == r[..1] + [r[1]];
    RunAppend(HOURLY, w0, r[..2], r[2]);
    assert r[..3] == r[..2] + [r[2]];
  }

  /** Without the guard the session outlives its last successful check by more than a TTL: here by 30 s. */
  lemma OverlongRunIsPossible()
    ensures Running(HOURLY, 1000 * SECOND) && PossibleRun(HOURLY, Start(1000 * SECOND), OVERLONG_RUN)
    ensures var w := Run(HOURLY, Start(1000 * SECOND), OVERLONG_RUN);
            && w.cell.Some?
            && w.log.lastOk == 1300 * SECOND
            && w.cell.value.exp * SECOND == w.log.lastOk + HOURLY.sessionTTL + 30 * SECOND
  {
    var w0, r := Start(1000 * SECOND), OVERLONG_RUN;
    ResolverOutageBegins();
    RunAppend(HOURLY, w0, r[..3], r[3]);
    assert r[..4] == r[..3] + [r[3]];
    RunAppend(HOURLY, w0, r[..4], r[4]);
    assert r[..5] == r[..4] + [r[4]];
    RunAppend(HOURLY, w0, r[..5], r[5]);
    assert r == r[..5] + [r[5]];
  }

  /** The guarded bound: as the source's comment intends, when no grant fails open while a retry is pending. */
  lemma GuardedLifeBound(cfg: Config, start: Time, run: seq<Event>)
    requires Running(cfg, start) && PossibleRun(cfg, Start(start), run)
    requires NoBackoffWhilePending(cfg, Start(start), run)
    requires Run(cfg, Start(start), run).cell.Some?
    ensures var w := Run(cfg, Start(start), run);
            w.cell.value.exp * SECOND <= w.log.lastOk + cfg.sessionTTL
  {
    GuardedRunsDoNotStretch(cfg, Start(start), run);
    EveryRunKeepsInv(cfg, start, run);
  }

  /**
   The grant rate over whole runs, whatever the resolver answers. Consecutive grants are more than the
   interval less a second apart after a granted one, and more than the backoff less a second after a
   fail-open one, so the number of grants in a window is the window over that distance, plus one.
   */
  lemma GrantRate(cfg: Config, start: Time, run: seq<Event>, i: nat, j: nat, window: Duration)
    requires Running(cfg, start) && PossibleRun(cfg, Start(start), run)
    requires var asks := Run(cfg, Start(start), run).log.asks; i <= j < |asks| && asks[j].at - asks[i].at <= window
    ensures var asks := Run(cfg, Start(start), run).log.asks;
            && (i < j ==> asks[i + 1].at - asks[i].at > Gap(cfg, asks[i]) - SECOND)
            && (j - i) * (TransportBackoff(cfg) - SECOND) <= window
            && ((forall k :: i <= k < j ==> asks[k].ok) ==> (j - i) * (cfg.revalidateInterval - SECOND) <= window)
  {
    EveryRunKeepsInv(cfg, start, run);
    var asks := Run(cfg, Start(start), run).log.asks;
    if i < j {
      assert asks[i + 1].at - asks[i + 1 - 1].at > Gap(cfg, asks[i]) - SECOND;
    }
    AsksAreApart(cfg, asks, i, j, TransportBackoff(cfg));
    if forall k :: i <= k < j ==> asks[k].ok {
      AsksAreApart(cfg, asks, i, j, cfg.revalidateInterval);
    }
  }

  /** The successive due steps of one browser never repeat a flight key, so none is served a retained answer. */
  lemma DueStepsNeverShareAKey(cfg: Config, start: Time, run: seq<Event>)
    requires Running(cfg, start) && cfg.revalidateInterval >= 2 * SECOND && PossibleRun(cfg, Start(start), run)
    ensures var w := Run(cfg, Start(start), run);
            && (forall i, j :: 0 <= i < j < |w.log.grantKeys| ==> w.log.grantKeys[i] < w.log.grantKeys[j])
            && (forall i, j :: 0 <= i < j < |w.log.retryKeys| ==> w.log.retryKeys[i] != w.log.retryKeys[j])
            && (w.cell.Some? ==> w.cell.value.lastValidated !in w.log.grantKeys)
            && (w.cell.Some? && w.cell.value.resolveRetryAt > 0 ==>
                  (w.cell.value.lastValidated, w.cell.value.resolveRetryAt) !in w.log.retryKeys)
  {
    EveryRunKeepsInv(cfg, start, run);
  }

  /**
   In the flight group's own terms: the key of the session's next due step differs from the key of every
   flight an earlier due step of this browser joined, for whatever cookie that step carried.
   */
  lemma EarlierFlightsAreNotRejoined(cfg: Config, start: Time, run: seq<Event>, earlier: Payload)
    requires Running(cfg, start) && cfg.revalidateInterval >= 2 * SECOND && PossibleRun(cfg, Start(start), run)
    requires var w := Run(cfg, Start(start), run);
             w.cell.Some? && Flights.PlainCookie(w.cell.value) && Flights.PlainCookie(earlier)
    ensures var w := Run(cfg, Start(start), run);
            var p := w.cell.value;
            && (earlier.lastValidated in w.log.grantKeys ==> Flights.GrantKey(p) != Flights.GrantKey(earlier))
            && (p.resolveRetryAt > 0 && (earlier.lastValidated, earlier.resolveRetryAt) in w.log.retryKeys ==>
                  Flights.ResolveKey(p) != Flights.ResolveKey(earlier))
  {
    DueStepsNeverShareAKey(cfg, start, run);
    Flights.GrantKeyIdentifies(Run(cfg, Start(start), run).cell.value, earlier);
    Flights.ResolveKeyIdentifies(Run(cfg, Start(start), run).cell.value, earlier);
  }

  predicate RunMintsAccess(cfg: Config, w: World, run: seq<Event>)
    requires PossibleRun(cfg, w, run)
    decreases |run|
  {
    run != [] ==> VisitMintsAccess(cfg, w, run[0]) && RunMintsAccess(cfg, Step(cfg, w, run[0]), run[1..])
  }

  lemma {:induction false} RunKeepsTokens(cfg: Config, w: World, run: seq<Event>)
    requires Accepted(cfg) && cfg.revalidateInterval > 0
    requires TokensAgree(w) && PossibleRun(cfg, w, run) && RunMintsAccess(cfg, w, run)
    ensures TokensAgree(Run(cfg, w, run))
    decreases |run|
  {
    if run != [] {
      TokensStayInAgreement(cfg, w, run[0]);
      RunKeepsTokens(cfg, Step(cfg, w, run[0]), run[1..]);
    }
  }

  /**
   A browser whose writes persist never presents a refresh token the provider has already consumed, when
   AccessToken's rotations come with new access tokens.
   */
  lemma CookieTokenIsLive(cfg: Config, start: Time, run: seq<Event>)
    requires Running(cfg, start) && PossibleRun(cfg, Start(start), run) && RunMintsAccess(cfg, Start(start), run)
    ensures var w := Run(cfg, Start(start), run);
            w.cell.Some? && w.cell.value.refreshToken != "" ==>
              w.cell.value.refreshToken in w.idp.live && w.cell.value.refreshToken !in w.idp.spent
  {
    RunKeepsTokens(cfg, Start(start), run);
  }

  /** auth_time is the earliest known among the login's and every verified refreshed one. */
  lemma AuthTimeOverRuns(cfg: Config, start: Time, run: seq<Event>)
    requires Running(cfg, start) && PossibleRun(cfg, Start(start), run)
    ensures var w := Run(cfg, Start(start), run);
            w.cell.Some? ==> IsEarliestKnown(w.cell.value.aut, w.log.loginAut, w.log.refreshed)
  {
    EveryRunKeepsInv(cfg, start, run);
    var w := Run(cfg, Start(start), run);
    MergeAllIsEarliestKnown(w.log.loginAut, w.log.refreshed);
  }
}
