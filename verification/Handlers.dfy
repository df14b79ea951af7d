/** What a request handler may do to the session it is served with (auth.go). */
module Handlers {
  import opened Wrappers
  import opened Clock
  import opened Identity
  import opened Payload
  import opened Config
  import opened Answers

  /** refreshedToken: the stored access token is still valid, was refreshed, or could not be. */
  datatype AccessAnswer = StillValid | Refreshed(tokens: Token) | Unavailable

  /**
   One call of Session, UpdateSession, UpdateSessionIf or AccessToken, with what its callback or the provider
   answered.
   */
  datatype Op = Read | Update(user: User) | UpdateIf(user: User, changed: bool) | Access(answer: AccessAnswer)

  predicate HoldsAccessToken(cfg: Config, p: Payload) {
    cfg.retainTokens && p.accessToken != ""
  }

  /** AccessToken persists a refreshed token set only when the access token changed. */
  function WithAccess(p: Payload, tokens: Token): Payload {
    if tokens.access == p.accessToken then p
    else
      p.(accessToken := tokens.access, accessTokenExp := Unix(tokens.expiry),
         refreshToken := if tokens.refresh != "" then tokens.refresh else p.refreshToken)
  }

  function AfterOp(cfg: Config, p: Payload, op: Op): Payload {
    match op
    case Read => p
    case Update(user) => FromUser(p, user)
    case UpdateIf(user, changed) => if changed then FromUser(p, user) else p
    case Access(answer) =>
      if HoldsAccessToken(cfg, p) && answer.Refreshed? then WithAccess(p, answer.tokens) else p
  }

  /** The call writes the session back. */
  predicate Writes(cfg: Config, p: Payload, op: Op) {
    match op
    case Read => false
    case Update(_) => true
    case UpdateIf(_, changed) => changed
    case Access(answer) => HoldsAccessToken(cfg, p) && answer.Refreshed? && answer.tokens.access != p.accessToken
  }

  predicate AsksProvider(cfg: Config, p: Payload, op: Op) {
    op.Access? && op.answer.Refreshed? && HoldsAccessToken(cfg, p)
  }

  function IdpAfterOp(cfg: Config, idp: Idp, p: Payload, op: Op): Idp {
    if AsksProvider(cfg, p, op) then AfterRefresh(idp, p.refreshToken, op.answer.tokens.refresh) else idp
  }

  /** The provider can give this answer. */
  predicate PossibleOp(cfg: Config, idp: Idp, p: Payload, op: Op) {
    AsksProvider(cfg, p, op) ==> MayAnswer(idp, p.refreshToken, op.answer.tokens.refresh)
  }

  /** A refresh that rotates the refresh token also mints a new access token. */
  predicate MintsAccess(cfg: Config, p: Payload, op: Op) {
    AsksProvider(cfg, p, op) && Rotates(p.refreshToken, op.answer.tokens.refresh) ==>
      op.answer.tokens.access != p.accessToken
  }

  /** The stored refresh token is one the provider still accepts. */
  predicate HoldsLiveToken(idp: Idp, p: Payload) {
    p.refreshToken != "" ==> p.refreshToken in idp.live
  }

  /**
   AccessToken keeps the session on a live refresh token exactly when the provider, whenever it rotates
   the refresh token, also mints a new access token; otherwise the rotated token is dropped.
   */
  lemma AccessTokenKeepsTheLiveToken(cfg: Config, idp: Idp, p: Payload, op: Op)
    requires Sound(idp) && HoldsLiveToken(idp, p) && PossibleOp(cfg, idp, p, op)
    ensures Sound(IdpAfterOp(cfg, idp, p, op))
    ensures HoldsLiveToken(IdpAfterOp(cfg, idp, p, op), AfterOp(cfg, p, op)) <==> MintsAccess(cfg, p, op)
  {
  }

  /**
   The other side at work: the provider rotates r0 to r1 and answers with the stored access token, and the
   session keeps r0.
   */
  lemma RotationWithoutANewAccessTokenIsDropped(cfg: Config, p: Payload)
    requires cfg.retainTokens && p.accessToken == "a" && p.refreshToken == "r0"
    ensures var idp, op := Idp({"r0"}, {}), Access(Refreshed(Token("a", "r1", 0)));
            && Sound(idp) && HoldsLiveToken(idp, p) && PossibleOp(cfg, idp, p, op)
            && AfterOp(cfg, p, op).refreshToken == "r0"
            && "r0" in IdpAfterOp(cfg, idp, p, op).spent && "r0" !in IdpAfterOp(cfg, idp, p, op).live
  {
  }

  // ----- a run of calls in one handler -----

  datatype Scope = Scope(payload: Payload, idp: Idp)

  function RunOp(cfg: Config, s: Scope, op: Op): Scope {
    Scope(AfterOp(cfg, s.payload, op), IdpAfterOp(cfg, s.idp, s.payload, op))
  }

  function RunOps(cfg: Config, s: Scope, ops: seq<Op>): Scope
    decreases |ops|
  {
    if ops == [] then s else RunOps(cfg, RunOp(cfg, s, ops[0]), ops[1..])
  }

  predicate PossibleOps(cfg: Config, s: Scope, ops: seq<Op>)
    decreases |ops|
  {
    ops != [] ==> PossibleOp(cfg, s.idp, s.payload, ops[0]) && PossibleOps(cfg, RunOp(cfg, s, ops[0]), ops[1..])
  }

  /** Every refresh in the run that rotates the refresh token also mints a new access token. */
  predicate AllMintAccess(cfg: Config, s: Scope, ops: seq<Op>)
    decreases |ops|
  {
    ops != [] ==> MintsAccess(cfg, s.payload, ops[0]) && AllMintAccess(cfg, RunOp(cfg, s, ops[0]), ops[1..])
  }

  /** The fields no handler call may move. */
  predicate SameFloor(p: Payload, q: Payload) {
    && p.exp == q.exp && p.idToken == q.idToken && p.aut == q.aut && p.src == q.src
    && p.lastValidated == q.lastValidated && p.resolveRetryAt == q.resolveRetryAt
  }

  lemma {:induction false} HandlersKeepTheFloor(cfg: Config, s: Scope, ops: seq<Op>)
    ensures SameFloor(RunOps(cfg, s, ops).payload, s.payload)
    decreases |ops|
  {
    if ops != [] {
      HandlersKeepTheFloor(cfg, RunOp(cfg, s, ops[0]), ops[1..]);
    }
  }

  lemma {:induction false} HandlersKeepTheLiveToken(cfg: Config, s: Scope, ops: seq<Op>)
    requires Sound(s.idp) && HoldsLiveToken(s.idp, s.payload) && PossibleOps(cfg, s, ops) && AllMintAccess(cfg, s, ops)
    ensures var r := RunOps(cfg, s, ops);
            && Sound(r.idp) && HoldsLiveToken(r.idp, r.payload)
            && (s.payload.refreshToken != "" ==> r.payload.refreshToken != "")
    decreases |ops|
  {
    if ops != [] {
      AccessTokenKeepsTheLiveToken(cfg, s.idp, s.payload, ops[0]);
      HandlersKeepTheLiveToken(cfg, RunOp(cfg, s, ops[0]), ops[1..]);
    }
  }

  /** The user of the last UpdateSession, or UpdateSessionIf that reported a change. */
  function LastUser(ops: seq<Op>): Option<User> {
    if ops == [] then None
    else
      match ops[|ops| - 1]
      case Update(user) => Some(user)
      case UpdateIf(user, true) => Some(user)
      case _ => LastUser(ops[..|ops| - 1])
  }

  lemma {:induction false} LastUserFromFront(ops: seq<Op>)
    requires ops != []
    ensures LastUser(ops) == if LastUser(ops[1..]).Some? then LastUser(ops[1..]) else LastUser(ops[..1])
  {
    if |ops| > 1 {
      var front := ops[..|ops| - 1];
      LastUserFromFront(front);
      assert front[1..] == ops[1..][..|ops| - 2] && front[..1] == ops[..1];
      assert ops[1..][|ops| - 2] == ops[|ops| - 1];
    } else {
      assert ops[..1] == ops;
    }
  }

  /** After any list of calls the session shows the user of the last update, and the one before when there was none. */
  lemma {:induction false} LastUpdateIsStored(cfg: Config, s: Scope, ops: seq<Op>)
    ensures RunOps(cfg, s, ops).payload.profile ==
            match LastUser(ops) case Some(user) => ProfileOf(user) case None => s.payload.profile
    decreases |ops|
  {
    if ops != [] {
      LastUpdateIsStored(cfg, RunOp(cfg, s, ops[0]), ops[1..]);
      LastUserFromFront(ops);
      assert ops[..1] == [ops[0]] && [ops[0]][..0] == [];
    }
  }

  predicate BringsAccess(op: Op) {
    op.Access? && op.answer.Refreshed? ==> op.answer.tokens.access != ""
  }

  /** The access token of the last refresh that was answered. */
  function LastAccess(ops: seq<Op>): Option<string> {
    if ops == [] then None
    else if ops[|ops| - 1].Access? && ops[|ops| - 1].answer.Refreshed? then Some(ops[|ops| - 1].answer.tokens.access)
    else LastAccess(ops[..|ops| - 1])
  }

  lemma {:induction false} LastAccessFromFront(ops: seq<Op>)
    requires ops != []
    ensures LastAccess(ops) == if LastAccess(ops[1..]).Some? then LastAccess(ops[1..]) else LastAccess(ops[..1])
  {
    if |ops| > 1 {
      var front := ops[..|ops| - 1];
      LastAccessFromFront(front);
      assert front[1..] == ops[1..][..|ops| - 2] && front[..1] == ops[..1];
      assert ops[1..][|ops| - 2] == ops[|ops| - 1];
    } else {
      assert ops[..1] == ops;
    }
  }

  /**
   After any list of calls the session holds the access token its last caller was given; one without any keeps
   none.
   */
  lemma {:induction false} LastAccessIsStored(cfg: Config, s: Scope, ops: seq<Op>)
    requires forall i :: 0 <= i < |ops| ==> BringsAccess(ops[i])
    ensures RunOps(cfg, s, ops).payload.accessToken ==
            if HoldsAccessToken(cfg, s.payload) && LastAccess(ops).Some? then LastAccess(ops).value
            else s.payload.accessToken
    decreases |ops|
  {
    if ops != [] {
      LastAccessIsStored(cfg, RunOp(cfg, s, ops[0]), ops[1..]);
      LastAccessFromFront(ops);
      assert ops[..1] == [ops[0]] && [ops[0]][..0] == [];
      assert BringsAccess(ops[0]);
    }
  }

  /** A refresh that brings a new access token is stored whole, with its expiry, and nothing else changes. */
  lemma NewAccessTokenIsStored(cfg: Config, p: Payload, tokens: Token)
    requires cfg.retainTokens && p.accessToken !in {"", tokens.access}
    ensures AfterOp(cfg, p, Access(Refreshed(tokens))) ==
            p.(accessToken := tokens.access, accessTokenExp := Unix(tokens.expiry),
               refreshToken := if tokens.refresh == "" then p.refreshToken else tokens.refresh)
    ensures AfterOp(cfg, p, Access(StillValid)) == AfterOp(cfg, p, Access(Unavailable)) == p
  {
  }

  // ----- a run of calls without the session middleware -----

  /** Every call starts again from the session the request carried; a write replaces what the browser holds. */
  function RunOpUnmanaged(cfg: Config, sent: Payload, s: Scope, op: Op): Scope {
    Scope(if Writes(cfg, sent, op) then AfterOp(cfg, sent, op) else s.payload, IdpAfterOp(cfg, s.idp, sent, op))
  }

  function RunUnmanaged(cfg: Config, sent: Payload, s: Scope, ops: seq<Op>): Scope
    decreases |ops|
  {
    if ops == [] then s else RunUnmanaged(cfg, sent, RunOpUnmanaged(cfg, sent, s, ops[0]), ops[1..])
  }

  predicate PossibleUnmanaged(cfg: Config, sent: Payload, s: Scope, ops: seq<Op>)
    decreases |ops|
  {
    ops != [] ==>
      && PossibleOp(cfg, s.idp, sent, ops[0])
      && PossibleUnmanaged(cfg, sent, RunOpUnmanaged(cfg, sent, s, ops[0]), ops[1..])
  }

  /** The call rotates the refresh token the request carried. */
  predicate RotatesSent(cfg: Config, sent: Payload, op: Op) {
    AsksProvider(cfg, sent, op) && Rotates(sent.refreshToken, op.answer.tokens.refresh)
  }

  /** UpdateSession, or an UpdateSessionIf that reports a change. */
  predicate Overwrites(op: Op) {
    op.Update? || (op.UpdateIf? && op.changed)
  }

  /** The first rotating AccessToken stored what it got, and no update of the session follows it. */
  predicate KeepsRotation(cfg: Config, sent: Payload, ops: seq<Op>)
    decreases |ops|
  {
    ops != [] ==>
      if RotatesSent(cfg, sent, ops[0]) then
        MintsAccess(cfg, sent, ops[0]) && forall i :: 0 < i < |ops| ==> !Overwrites(ops[i])
      else KeepsRotation(cfg, sent, ops[1..])
  }

  /**
   Once the sent token is consumed every further call still presents it, so no AccessToken is answered any
   more, and the first update of the session puts it back into the browser.
   */
  lemma {:induction false} AfterTheRotation(cfg: Config, sent: Payload, s: Scope, ops: seq<Op>)
    requires Sound(s.idp) && sent.refreshToken in s.idp.spent && PossibleUnmanaged(cfg, sent, s, ops)
    ensures var r := RunUnmanaged(cfg, sent, s, ops);
            && r.idp == s.idp
            && (forall i :: 0 <= i < |ops| ==> !AsksProvider(cfg, sent, ops[i]))
            && r.payload.refreshToken ==
               if exists i :: 0 <= i < |ops| && Overwrites(ops[i]) then sent.refreshToken else s.payload.refreshToken
    decreases |ops|
  {
    if ops != [] {
      AfterTheRotation(cfg, sent, RunOpUnmanaged(cfg, sent, s, ops[0]), ops[1..]);
      assert forall i :: 0 < i < |ops| ==> ops[i] == ops[1..][i - 1];
    }
  }

  /**
   Without the middleware, any list of calls leaves the browser on a refresh token the provider accepts
   exactly when the first rotation was stored and no update of the session follows it.
   */
  lemma {:induction false} UnmanagedKeepsTheLiveToken(cfg: Config, sent: Payload, s: Scope, ops: seq<Op>)
    requires Sound(s.idp) && s.payload.refreshToken == sent.refreshToken && sent.refreshToken in s.idp.live
    requires PossibleUnmanaged(cfg, sent, s, ops)
    ensures var r := RunUnmanaged(cfg, sent, s, ops);
            && (r.payload.refreshToken in r.idp.live <==> KeepsRotation(cfg, sent, ops))
            && (!KeepsRotation(cfg, sent, ops) ==>
                r.payload.refreshToken == sent.refreshToken && sent.refreshToken in r.idp.spent)
    decreases |ops|
  {
    if ops != [] {
      var next := RunOpUnmanaged(cfg, sent, s, ops[0]);
      if RotatesSent(cfg, sent, ops[0]) {
        AfterTheRotation(cfg, sent, next, ops[1..]);
        assert forall i :: 0 < i < |ops| ==> ops[i] == ops[1..][i - 1];
        assert (exists i :: 0 <= i < |ops| - 1 && Overwrites(ops[1..][i]))
               <==> exists i :: 0 < i < |ops| && Overwrites(ops[i]);
      } else {
        UnmanagedKeepsTheLiveToken(cfg, sent, next, ops[1..]);
      }
    }
  }

  /** The shortest handler that loses a rotation: AccessToken, then UpdateSession. */
  lemma RotationIsLostWithoutMiddleware(cfg: Config, sent: Payload, user: User)
    requires cfg.retainTokens && sent.accessToken == "a" && sent.refreshToken == "r0"
    ensures var s, ops := Scope(sent, Idp({"r0"}, {})), [Access(Refreshed(Token("b", "r1", 0))), Update(user)];
            var r := RunUnmanaged(cfg, sent, s, ops);
            && PossibleUnmanaged(cfg, sent, s, ops) && !KeepsRotation(cfg, sent, ops)
            && r.payload.refreshToken == "r0" && "r0" in r.idp.spent && "r0" !in r.idp.live
  {
    var s, ops := Scope(sent, Idp({"r0"}, {})), [Access(Refreshed(Token("b", "r1", 0))), Update(user)];
    assert Overwrites(ops[1]);
    UnmanagedKeepsTheLiveToken(cfg, sent, s, ops);
  }

  /** What the last writing call leaves in the browser when each starts from the session the request carried. */
  function LastUnmanaged(cfg: Config, sent: Payload, ops: seq<Op>): Option<Profile> {
    if ops == [] then None
    else
      match ops[|ops| - 1]
      case Update(user) => Some(ProfileOf(user))
      case UpdateIf(user, true) => Some(ProfileOf(user))
      case Access(Refreshed(tokens)) =>
        if cfg.retainTokens && sent.accessToken !in {"", tokens.access} then Some(sent.profile)
        else LastUnmanaged(cfg, sent, ops[..|ops| - 1])
      case _ => LastUnmanaged(cfg, sent, ops[..|ops| - 1])
  }

  lemma {:induction false} LastUnmanagedFromFront(cfg: Config, sent: Payload, ops: seq<Op>)
    requires ops != []
    ensures LastUnmanaged(cfg, sent, ops) ==
            var rest := LastUnmanaged(cfg, sent, ops[1..]);
            if rest.Some? then rest else LastUnmanaged(cfg, sent, ops[..1])
  {
    if |ops| > 1 {
      var front := ops[..|ops| - 1];
      LastUnmanagedFromFront(cfg, sent, front);
      assert front[1..] == ops[1..][..|ops| - 2] && front[..1] == ops[..1];
      assert ops[1..][|ops| - 2] == ops[|ops| - 1];
    } else {
      assert ops[..1] == ops;
    }
  }

  /**
   Without the middleware updates do not compound: the last write wins, and an AccessToken's write undoes an
   update.
   */
  lemma {:induction false} LastUnmanagedWriteWins(cfg: Config, sent: Payload, s: Scope, ops: seq<Op>)
    ensures RunUnmanaged(cfg, sent, s, ops).payload.profile ==
            match LastUnmanaged(cfg, sent, ops) case Some(profile) => profile case None => s.payload.profile
    decreases |ops|
  {
    if ops != [] {
      LastUnmanagedWriteWins(cfg, sent, RunOpUnmanaged(cfg, sent, s, ops[0]), ops[1..]);
      LastUnmanagedFromFront(cfg, sent, ops);
      assert ops[..1] == [ops[0]] && [ops[0]][..0] == [];
    }
  }
}
