/**
 What a session holds after a whole run, field by field: the value of the last event that wrote the field.
 The tables below say which events write what, without the functions that do it.
 */
module SessionHistory {
  import opened Wrappers
  import opened Clock
  import opened Identity
  import opened Payload
  import opened Config
  import opened Answers
  import opened Admission
  import opened Revalidate
  import opened Handlers
  import opened SessionRuns
  import SessionSync
  import StepUp

  // ----- the last write wins -----

  /** What the last event of the run that wrote a value wrote. */
  function LastWrite<T>(cfg: Config, w: World, run: seq<Event>, wrote: (World, Event) -> Option<T>): Option<T>
    requires PossibleRun(cfg, w, run)
    decreases |run|
  {
    if run == [] then None
    else
      var later := LastWrite(cfg, Step(cfg, w, run[0]), run[1..], wrote);
      if later.Some? then later else wrote(w, run[0])
  }

  predicate Always(cfg: Config, w: World, run: seq<Event>, ok: (World, Event) -> bool)
    requires PossibleRun(cfg, w, run)
    decreases |run|
  {
    run != [] ==> ok(w, run[0]) && Always(cfg, Step(cfg, w, run[0]), run[1..], ok)
  }

  /** One event leaves in the session what the table says it writes, and otherwise what was there. */
  ghost predicate TableHolds<T(!new)>(cfg: Config, wrote: (World, Event) -> Option<T>, read: Payload -> T,
                                      ok: (World, Event) -> bool)
  {
    forall w, e :: Possible(cfg, w, e) && ok(w, e) && Step(cfg, w, e).cell.Some? ==>
                     var after := read(Step(cfg, w, e).cell.value);
                     match wrote(w, e)
                     case Some(value) => after == value
                     case None => w.cell.Some? && after == read(w.cell.value)
  }

  lemma {:induction false} LastWriteWins<T(!new)>(cfg: Config, w: World, run: seq<Event>,
                                                  wrote: (World, Event) -> Option<T>, read: Payload -> T,
                                                  ok: (World, Event) -> bool)
    requires TableHolds(cfg, wrote, read, ok) && PossibleRun(cfg, w, run) && Always(cfg, w, run, ok)
    ensures var last := Run(cfg, w, run).cell;
            last.Some? ==>
              match LastWrite(cfg, w, run, wrote)
              case Some(value) => read(last.value) == value
              case None => w.cell.Some? && read(last.value) == read(w.cell.value)
    decreases |run|
  {
    if run != [] {
      LastWriteWins(cfg, Step(cfg, w, run[0]), run[1..], wrote, read, ok);
    }
  }

  const ANY: (World, Event) -> bool := (w, e) => true

  lemma {:induction false} AnyAlways(cfg: Config, w: World, run: seq<Event>)
    requires PossibleRun(cfg, w, run)
    ensures Always(cfg, w, run, ANY)
    decreases |run|
  {
    if run != [] {
      AnyAlways(cfg, Step(cfg, w, run[0]), run[1..]);
    }
  }

  // ----- who the session shows -----

  /** The resolver's admitted answer that a request brings to its session, if any. */
  function AppliedAnswer(cfg: Config, w: World, shared: Shared): Option<User>
    requires Live(w)
  {
    match (DueWork(cfg, w.cell.value, w.now), shared)
    case (AskIdp, Granted(_, _, Some(Applied(user)))) => Some(user)
    case (AskResolver, Resolved(Applied(user))) => Some(user)
    case _ => None
  }

  /** The answer's profile, with the organization picked before while it is one of the answer's. */
  function WithPick(picked: string, user: User): Profile {
    var keeps := picked != "" && exists i :: 0 <= i < |user.memberships| && user.memberships[i].orgId == picked;
    Profile(user.sub, user.email, user.emailVerified, user.name, if keeps then picked else user.orgId,
            user.memberships, user.claims, user.realmRoles, user.sessionId)
  }

  predicate Confirms(cfg: Config, w: World, cb: SessionSync.Callback) {
    SessionSync.AfterCallback(cfg, w.cell, w.now, cb).0.Unchanged?
  }

  function WroteProfile(cfg: Config, w: World, e: Event): Option<Profile> {
    match e
    case Login(_, _, _, user) => Some(ProfileOf(user))
    case Issue(_, user) => Some(ProfileOf(user))
    case Visit(shared, ops) =>
      if !Live(w) then None
      else if LastUser(ops).Some? then Some(ProfileOf(LastUser(ops).value))
      else if AppliedAnswer(cfg, w, shared).Some? then
        Some(WithPick(w.cell.value.profile.orgId, AppliedAnswer(cfg, w, shared).value))
      else None
    case Sync(cb) =>
      if w.cell.Some? && Confirms(cfg, w, cb) && w.cell.value.profile.sid == "" && w.cell.value.src != "grant"
         && cb.Identified?
      then Some(w.cell.value.profile.(sid := cb.browser.sessionId))
      else None
    case _ => None
  }

  lemma VisitWritesProfile(cfg: Config, w: World, e: Event)
    requires cfg.revalidateInterval > 0 && e.Visit? && Possible(cfg, w, e) && Live(w) && Step(cfg, w, e).cell.Some?
    ensures Step(cfg, w, e).cell.value.profile ==
            match WroteProfile(cfg, w, e) case Some(profile) => profile case None => w.cell.value.profile
  {
    var idp := IdpAfterWork(w, w.cell.value, DueWork(cfg, w.cell.value, w.now), e.shared);
    LastUpdateIsStored(cfg, Scope(Middle(cfg, w, e.shared).value, idp), e.ops);
  }

  /**
   The session shows the user of the last login, update, or applied resolution, and a first sign-in once it is
   known.
   */
  lemma LastProfileIsShown(cfg: Config, start: Time, run: seq<Event>)
    requires Running(cfg, start) && PossibleRun(cfg, Start(start), run)
    ensures var w := Run(cfg, Start(start), run);
            w.cell.Some? ==>
              Some(w.cell.value.profile) == LastWrite(cfg, Start(start), run, (w, e) => WroteProfile(cfg, w, e))
  {
    var wrote, read := (w, e) => WroteProfile(cfg, w, e), (p: Payload) => p.profile;
    forall w, e | Possible(cfg, w, e) && Step(cfg, w, e).cell.Some?
      ensures match wrote(w, e)
              case Some(value) => Step(cfg, w, e).cell.value.profile == value
              case None => w.cell.Some? && Step(cfg, w, e).cell.value.profile == w.cell.value.profile
    {
      if e.Visit? && Live(w) {
        VisitWritesProfile(cfg, w, e);
      }
    }
    AnyAlways(cfg, Start(start), run);
    LastWriteWins(cfg, Start(start), run, wrote, read, ANY);
  }

  /**
   A removed member is out at the first applied answer: whatever the session showed before,
       a request that brings one and
   whose handler updates nothing leaves exactly the answer's memberships, roles, claims and subject, and as
   active organization the picked one if the answer still has it, else the answer's own.
   */
  lemma AppliedAnswerIsShown(cfg: Config, w: World, shared: Shared, ops: seq<Op>)
    requires cfg.revalidateInterval > 0 && Live(w) && Possible(cfg, w, Visit(shared, ops))
    requires AppliedAnswer(cfg, w, shared).Some? && LastUser(ops).None?
    ensures var user, next := AppliedAnswer(cfg, w, shared).value, AfterVisit(cfg, w, shared, ops).cell;
            var picked := w.cell.value.profile.orgId;
            && next.Some?
            && next.value.profile.mbs == user.memberships && next.value.profile.sub == user.sub
            && next.value.profile.rls == user.realmRoles && next.value.profile.claims == user.claims
            && (next.value.profile.orgId == picked || next.value.profile.orgId == user.orgId)
            && (picked != "" && IsMemberOf(user.memberships, picked) ==> next.value.profile.orgId == picked)
            && (picked == "" || !IsMemberOf(user.memberships, picked) ==> next.value.profile.orgId == user.orgId)
  {
    VisitWritesProfile(cfg, w, Visit(shared, ops));
  }

  // ----- when it was checked, is retried and ends -----

  datatype Stamps = Stamps(lastValidated: int, resolveRetryAt: int, exp: int)

  function StampsOf(p: Payload): Stamps {
    Stamps(p.lastValidated, p.resolveRetryAt, p.exp)
  }

  /** Thirty seconds, or half an interval when that is all there is to borrow. */
  function Wait(cfg: Config): Duration {
    if cfg.revalidateInterval > 30 * SECOND then 30 * SECOND else cfg.revalidateInterval / 2
  }

  function WroteStamps(cfg: Config, w: World, e: Event): Option<Stamps> {
    var checked := Unix(w.now);
    var full := Unix(w.now + cfg.sessionTTL);
    match e
    case Login(_, _, _, _) => Some(Stamps(checked, 0, full))
    case Issue(_, _) => Some(Stamps(checked, 0, full))
    case Visit(shared, _) =>
      if !Live(w) then None
      else
        var p := w.cell.value;
        (match (DueWork(cfg, p, w.now), shared)
         case (AskIdp, Failed(_)) => Some(Stamps(Unix(w.now + Wait(cfg) - cfg.revalidateInterval), p.resolveRetryAt,
             p.exp))
         case (AskIdp, Granted(_, _, Some(Soft))) => Some(Stamps(checked, Unix(w.now + Wait(cfg)), p.exp))
         case (AskIdp, Granted(_, _, _)) => Some(Stamps(checked, 0, full))
         case (AskResolver, Resolved(Soft)) => Some(Stamps(p.lastValidated, Unix(w.now + Wait(cfg)), p.exp))
         case (AskResolver, Resolved(Applied(_))) =>
           var owed := p.lastValidated + cfg.sessionTTL / SECOND;
           Some(Stamps(p.lastValidated, 0, if owed > p.exp then owed else p.exp))
         case _ => None)
    case Sync(cb) =>
      if w.cell.Some? && Confirms(cfg, w, cb) then Some(Stamps(checked, w.cell.value.resolveRetryAt, full)) else None
    case _ => None
  }

  lemma VisitWritesStamps(cfg: Config, w: World, e: Event)
    requires Accepted(cfg) && cfg.revalidateInterval > 0
    requires e.Visit? && Possible(cfg, w, e) && Live(w) && Step(cfg, w, e).cell.Some?
    ensures StampsOf(Step(cfg, w, e).cell.value) ==
            match WroteStamps(cfg, w, e) case Some(stamps) => stamps case None => StampsOf(w.cell.value)
  {
    VisitFloor(cfg, w, e.shared, e.ops);
  }

  /** The stamps are exactly those of the last event that set them; a full check gives a full TTL, an outage none. */
  lemma LastStampsAreKept(cfg: Config, start: Time, run: seq<Event>)
    requires Running(cfg, start) && PossibleRun(cfg, Start(start), run)
    ensures var w := Run(cfg, Start(start), run);
            w.cell.Some? ==>
              Some(StampsOf(w.cell.value)) == LastWrite(cfg, Start(start), run, (w, e) => WroteStamps(cfg, w, e))
  {
    var wrote, read := (w, e) => WroteStamps(cfg, w, e), (p: Payload) => StampsOf(p);
    forall w, e | Possible(cfg, w, e) && Step(cfg, w, e).cell.Some?
      ensures match wrote(w, e)
              case Some(value) => StampsOf(Step(cfg, w, e).cell.value) == value
              case None => w.cell.Some? && StampsOf(Step(cfg, w, e).cell.value) == StampsOf(w.cell.value)
    {
      if e.Visit? && Live(w) {
        VisitWritesStamps(cfg, w, e);
      }
    }
    AnyAlways(cfg, Start(start), run);
    LastWriteWins(cfg, Start(start), run, wrote, read, ANY);
  }

  // ----- which token it forwards -----

  predicate EveryRefreshBringsAccess(w: World, e: Event) {
    e.Visit? ==> forall i :: 0 <= i < |e.ops| ==> BringsAccess(e.ops[i])
  }

  function WroteAccess(cfg: Config, w: World, e: Event): Option<string> {
    match e
    case Login(_, _, tokens, _) => Some(if cfg.retainTokens && tokens.Some? then tokens.value.access else "")
    case Issue(_, _) => Some("")
    case Visit(shared, ops) =>
      if !Live(w) then None
      else
        var granted := DueWork(cfg, w.cell.value, w.now).AskIdp? && shared.Granted?;
        var held := if granted then shared.tokens.access else w.cell.value.accessToken;
        if cfg.retainTokens && held != "" && LastAccess(ops).Some? then LastAccess(ops)
        else if granted then Some(held)
        else None
    case Sync(cb) =>
      if w.cell.Some? && Confirms(cfg, w, cb) && cb.Identified? && cb.tokens.Some? && cfg.retainTokens
         && w.cell.value.src != "grant"
      then Some(cb.tokens.value.access)
      else None
    case _ => None
  }

  lemma VisitWritesAccess(cfg: Config, w: World, e: Event)
    requires cfg.revalidateInterval > 0 && e.Visit? && Possible(cfg, w, e) && Live(w) && Step(cfg, w, e).cell.Some?
    requires EveryRefreshBringsAccess(w, e)
    ensures Step(cfg, w, e).cell.value.accessToken ==
            match WroteAccess(cfg, w, e) case Some(access) => access case None => w.cell.value.accessToken
  {
    var idp := IdpAfterWork(w, w.cell.value, DueWork(cfg, w.cell.value, w.now), e.shared);
    LastAccessIsStored(cfg, Scope(Middle(cfg, w, e.shared).value, idp), e.ops);
  }

  /** The session forwards the access token of the last token set it was given, by login, grant, sync or refresh. */
  lemma LastAccessIsForwarded(cfg: Config, start: Time, run: seq<Event>)
    requires Running(cfg, start) && PossibleRun(cfg, Start(start), run)
    requires Always(cfg, Start(start), run, EveryRefreshBringsAccess)
    ensures var w := Run(cfg, Start(start), run);
            w.cell.Some? ==>
              Some(w.cell.value.accessToken) == LastWrite(cfg, Start(start), run, (w, e) => WroteAccess(cfg, w, e))
  {
    var wrote, read := (w, e) => WroteAccess(cfg, w, e), (p: Payload) => p.accessToken;
    forall w, e | Possible(cfg, w, e) && EveryRefreshBringsAccess(w, e) && Step(cfg, w, e).cell.Some?
      ensures match wrote(w, e)
              case Some(value) => Step(cfg, w, e).cell.value.accessToken == value
              case None => w.cell.Some? && Step(cfg, w, e).cell.value.accessToken == w.cell.value.accessToken
    {
      if e.Visit? && Live(w) {
        VisitWritesAccess(cfg, w, e);
      }
    }
    LastWriteWins(cfg, Start(start), run, wrote, read, EveryRefreshBringsAccess);
  }

  predicate SameTokens(p: Payload, q: Payload) {
    p.accessToken == q.accessToken && p.accessTokenExp == q.accessTokenExp && p.refreshToken == q.refreshToken
  }

  lemma {:induction false} OthersKeepTheTokens(cfg: Config, s: Scope, ops: seq<Op>)
    requires forall i :: 0 <= i < |ops| ==> !(ops[i].Access? && ops[i].answer.Refreshed?)
    ensures SameTokens(RunOps(cfg, s, ops).payload, s.payload)
    decreases |ops|
  {
    if ops != [] {
      OthersKeepTheTokens(cfg, RunOp(cfg, s, ops[0]), ops[1..]);
    }
  }

  /** A granted check that keeps the session stores the whole token set; an omitted refresh token keeps the old one. */
  lemma GrantedTokensAreStored(cfg: Config, w: World, shared: Shared, ops: seq<Op>)
    requires cfg.revalidateInterval > 0 && Live(w) && Possible(cfg, w, Visit(shared, ops))
    requires DueWork(cfg, w.cell.value, w.now).AskIdp? && shared.Granted?
    requires forall i :: 0 <= i < |ops| ==> !(ops[i].Access? && ops[i].answer.Refreshed?)
    ensures var next := AfterVisit(cfg, w, shared, ops).cell;
            && (next.None? <==> shared.reresolved == Some(Ended))
            && (next.Some? ==>
                  && next.value.accessToken == shared.tokens.access
                  && next.value.accessTokenExp == Unix(shared.tokens.expiry)
                  && next.value.refreshToken ==
                     (if shared.tokens.refresh == "" then w.cell.value.refreshToken else shared.tokens.refresh))
  {
    if Middle(cfg, w, shared).Some? {
      var idp := IdpAfterWork(w, w.cell.value, DueWork(cfg, w.cell.value, w.now), shared);
      OthersKeepTheTokens(cfg, Scope(Middle(cfg, w, shared).value, idp), ops);
    }
  }

  // ----- where it came from -----

  datatype Origin = Origin(idToken: string, src: string)

  function WroteOrigin(cfg: Config, w: World, e: Event): Option<Origin> {
    match e
    case Login(idToken, _, _, _) => Some(Origin(idToken, ""))
    case Issue(idToken, _) => Some(Origin(idToken, "grant"))
    case _ => None
  }

  /** The ID token and the source are those the session was minted with. */
  lemma OriginIsKept(cfg: Config, start: Time, run: seq<Event>)
    requires Running(cfg, start) && PossibleRun(cfg, Start(start), run)
    ensures var w := Run(cfg, Start(start), run);
            w.cell.Some? ==>
              Some(Origin(w.cell.value.idToken, w.cell.value.src)) ==
              LastWrite(cfg, Start(start), run, (w, e) => WroteOrigin(cfg, w, e))
  {
    var wrote, read := (w, e) => WroteOrigin(cfg, w, e), (p: Payload) => Origin(p.idToken, p.src);
    forall w, e | Possible(cfg, w, e) && Step(cfg, w, e).cell.Some?
      ensures match wrote(w, e)
              case Some(value) => read(Step(cfg, w, e).cell.value) == value
              case None => w.cell.Some? && read(Step(cfg, w, e).cell.value) == read(w.cell.value)
    {
      if e.Visit? && Live(w) {
        VisitFloor(cfg, w, e.shared, e.ops);
      }
    }
    AnyAlways(cfg, Start(start), run);
    LastWriteWins(cfg, Start(start), run, wrote, read, ANY);
  }

  /**
   An inline login was never joined to the browser's provider session, so a silent check that finds none says nothing
   about it; for a redirect login the same answer is the sign-out.
   */
  lemma OnlyRedirectLoginsAreSignedOut(cfg: Config, now: Time, later: Time, idToken: string, user: User,
                                       authTime: Option<Time>, tokens: Option<Token>)
    requires Unix(later) <= Unix(now + cfg.sessionTTL)
    ensures var inlined := IssuedSession(cfg, now, idToken, user);
            SessionSync.AfterCallback(cfg, Some(inlined), later, SessionSync.IdpError("login_required"))
            == (SessionSync.NotApplicable, Some(inlined))
    ensures var redirected := NewSession(cfg, now, idToken, authTime, tokens, user);
            SessionSync.AfterCallback(cfg, Some(redirected), later, SessionSync.IdpError("login_required"))
            == (SessionSync.SignedOut, None)
  {
  }

  /**
   A window after its login's auth_time no session passes for a recent authentication, however often it was
   refreshed.
   */
  lemma StepUpGoesStale(cfg: Config, start: Time, run: seq<Event>, window: Duration)
    requires Running(cfg, start) && PossibleRun(cfg, Start(start), run)
    ensures var w := Run(cfg, Start(start), run);
            w.cell.Some? && w.log.loginAut > 0 && w.now > w.log.loginAut * SECOND + window ==>
              !StepUp.RecentlyAuthenticated(w.cell.value.aut, window, w.now)
  {
    AuthTimeOverRuns(cfg, start, run);
    var w := Run(cfg, Start(start), run);
    if w.cell.Some? {
      StepUp.RecentExactly(w.cell.value.aut, window, w.now);
    }
  }
}
