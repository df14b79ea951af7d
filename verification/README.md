# The revalidated session

A Dafny model of go-vai-oidc's session: a stateless, encrypted cookie that has to stay consistent with an
identity provider which rotates refresh tokens and revokes a consumed one, while many requests carry
the same cookie, two retry clocks run side by side, and handlers write the session back as they like.
`dafny verify dfyconfig.toml` checks everything.

## How it is organised

| file | what it models |
|---|---|
| `Wrappers`, `Clock`, `Decimal`, `Config` | options, instants in nanoseconds and whole seconds, strconv's integers, the accepted revalidation settings |
| `Identity`, `Payload`, `Answers` | the user, the cookie's payload (as a value and as the mutable record), what the provider and resolver answer, the provider's live and spent refresh tokens |
| `Cookies` | the chunked cookie store against a browser jar with leftovers |
| `Admission` | the login gates, re-resolution, and the login callback on the same answer |
| `ObolResolver` | the reference resolver's decision and the landing URL's admission |
| `StepUp` | max_age marker, auth_time check, never-advance merge |
| `Revalidate` | one request's revalidation: pure decisions, and the methods that update the record |
| `Handlers` | Session, UpdateSession, UpdateSessionIf and AccessToken, and runs of them |
| `SessionSync` | the verdict of a silent sync callback, and runs of callbacks |
| `SessionRuns` | whole runs of one browser: logins, visits, syncs, logouts and time |
| `SessionHistory` | what a session holds after a run, field by field, as the last event that wrote it |
| `Flights` | the flight group: keys, the map as a value, and the object whose critical sections change it |
| `FlightSystem` | any number of interleaved requests of both kinds (grants and resolver retries), one flight group and a token-revoking provider |
| `HealthyRun` | a concrete run of two tabs that share one grant, and the next flight after it |
| `OutageRun` | the concrete run in which a handler's refresh after a failed flight signs another tab out |
| `BrowserRuns` | one browser on that system: concurrent requests, answers stored in any order, flight after flight |
| `RequestScope` | one request on the real jar and the shared payload, proved to do what a visit of `SessionRuns` does |
| `SharedAnswers` | slices and maps as references: why one retained answer can serve every caller |
| `Discovery` | the discovery retry loop with int64 shifts |

Two layers meet in each place where the source mutates state. A method on a class or a loop does
the steps of the Go code, and its postcondition equates the new state with a function of the old one.
The theorems are about those functions: over every run, every interleaving, every jar.

## Results

- **No self-inflicted sign-out** (`FlightSystem.NoSelfInflictedSignOut`). In every interleaving in which a
  cookie's requests arrive while its flight runs or is retained, a flight presents its refresh token once, nobody
  reads `invalid_grant`, and all requests that come back hold one and the same answer, whose rotated token
  the provider accepts until it is presented.
  - How far the retention reaches is exact: an arrival starts a grant of its own if and only if every earlier
    call of its key panicked or finished ten seconds ago (`ArrivalLeadsExactly`). With a consumed token it is then
    signed out if and only if the provider answers `invalid_grant`, and served on a backed-off session
    otherwise (`LateStragglerAsksAgain`).
  - Handlers' AccessToken refreshes run outside the flight group. They present the token a second time if and
    only if the flight failed open and a handler of a request it served refreshed (`PresentedOnceExactly`).
  - A request that joins a retained answer stamps it with its own clock and gains less than ten seconds by it
    (`RetentionAddsTenSeconds`).
- **Flight after flight** (`BrowserRuns.BrowserStaysSignedIn`). A browser with concurrent requests, each of the
  kind its cookie is due for, storing answers in any order, is never signed out by its own concurrency over any
  number of flights, outages and handlers' refreshes, and at rest always holds a token the provider accepts. It
  must start a flight only when nothing is pending, join one only while that is running or retained, and a handler
  must refresh only when its request is the one pending.
- **Session life over whole runs** (`SessionRuns.LifeBound`). See the first point of the next section.
- **Grant rate, flight keys, token agreement and auth_time over whole runs** (`GrantRate`,
  `DueStepsNeverShareAKey`, `EarlierFlightsAreNotRejoined`, `CookieTokenIsLive`, `AuthTimeOverRuns`).
- **What a session holds after a run** (`SessionHistory`). Profile, stamps, forwarded token and origin are each the value of the
  last event that wrote them, where tables that do not use the modelled functions say what every event writes
  (`LastProfileIsShown`, `LastStampsAreKept`, `LastAccessIsForwarded`, `OriginIsKept`): a removed member is out at the
  first applied answer (`AppliedAnswerIsShown`), a full check gives a full TTL, and an outage gives none.
- **Who is let in, kept, signed out, and found** is exact: `Admission.LoginExactly`, `Revalidate.SignedOutExactly`,
  `SessionSync.VerdictOnAnIdentity` and `VerdictOnACode`, `StepUp.RecentExactly`,
  `ObolResolver.ResolverExactly`, `Discovery.DiscoveryEndsExactly`.
- **The jar is a one-cell store** from any starting jar (`Cookies.JarRefinesCell`), and a request on it does
  what the run model says (`RequestScope.RequestScope.HandleRequest`).
- **Revalidation agrees with login** (`Admission.ReresolveAgreesWithLogin`).

## Where the code departs from its own words

The model follows the code; each departure that can fail has its exact condition and a failing instance.

- `revalidate.go:286-288` says a resolver retry slides `Exp` to what the last IdP check allowed. A fail-open
  grant moves `LastValidated` without an IdP check (`revalidate.go:358`) and leaves the retry pending, so a retry that
  then succeeds slides `Exp` further. `OverlongRunIsPossible` is such a run: the session outlives the last
  check by a TTL and 30 s. `LifeBound` gives both directions for whole-second TTLs and intervals of at
  least two seconds: the bound fails exactly when in the run a grant fails, a resolver retry is applied after it, and
  no check succeeds any more (`RetryAfterBackoff`, a predicate on the events). `GuardedLifeBound` is the bound for
  runs in which no grant fails open while a retry is pending.
- `reresolve.go:29-34` says a resolver error fails open. An error that wraps one of the gates' own errors ends
  the session, because `admissionReason` looks for those first. `ErrorWrappingAGateEndsTheSession` is an
  equivalence.
- `AccessToken` stores a refreshed token set only when the access token changed (`auth.go:506`), so a rotation
  that returns the same access token is dropped. `AccessTokenKeepsTheLiveToken` is an equivalence,
  `RotationWithoutANewAccessTokenIsDropped` an instance. Token agreement over runs assumes every rotation there mints
  a new access token; no other run theorem does.
- Without the session middleware each handler call starts again from the cookie the request carried.
  `UnmanagedKeepsTheLiveToken` says for every list of calls when the browser is left on a token the provider
  accepts: exactly when the first rotation was stored and no UpdateSession, and no UpdateSessionIf that reports a change,
  follows it. `RotationIsLostWithoutMiddleware` is the shortest handler that loses it.
- The flight group exists so that concurrent requests do not present one refresh token twice
  (`revalidate.go:117-120`, `revalidate_flight.go:83-85`). AccessToken refreshes outside it (`auth.go:499`), and after a
  flight that failed open two tabs can. `PresentedOnceExactly` is an equivalence,
  `RefreshAfterAnOutageStrandsTheOthers` says what one such rotation leaves behind, and
  `OutageRun.SecondTabIsSignedOut` is a run that ends in the sign-out: the provider is down when two tabs fall due, one
  tab's handler then refreshes, and 31 s later the other is refused.
- The discovery backoff's shift overflows int64 exactly for budgets over 255.5 s
  (`SafeExactlyUpTo255Seconds`).

## Assumptions

- Encryption, JSON and base64 are one codec with a round trip and colon-free output (`Lawful`). The flight key's hash is
  taken as injective: the key is the hashed text itself, and subject and refresh token contain no NUL.
- The clock never runs backwards and starts at least one interval and a second after 1970.
- In `SessionRuns` the cookie writes persist and one browser's requests follow each other. `RequestScope` reports
  a write that did not persist; `FlightSystem` has the concurrency.
- The provider hands out refresh tokens it has not consumed. In `FlightSystem` it rotates on every grant and
  answers `invalid_grant` only to a consumed token: a session it ends itself is signed out rightly.
- Resolvers, mutations and the provider answer arbitrarily otherwise.

## Model

| member | source | states |
|---|---|---|
| `Cookies.CookieJar.SetSessionCookie` | session.go:218-250 | the write leaves the jar of the one-cell theorems, reports whether the value fits, and a refused write changes no cookie |
| `Cookies.CookieJar.ReadSessionCookie` | session.go:254-285 | the reader's loop computes the reassembly the theorems speak of, on any jar |
| `Cookies.CookieJar.ClearSessionCookie` | session.go:289-296 | the base cookie and all eight chunk names go, nothing else |
| `Cookies.ChunkString` | session.go:331-338 | pieces join to the text, all but the last have exactly the size, their count is the ceiling quotient |
| `Cookies.ChunksExact` | session.go:329-338 | the same of the recursive cutting the write is specified by |
| `Cookies.ChunkNamesDistinct` | session.go:325-327 | chunk names differ from each other and from the base name |
| `Cookies.ColonFreeIsNoHeader` | session.go:261-263 | base64url text is never taken for a chunk header |
| `Cookies.WriteThenRead` | session.go:218-285 | a write that fits is read back exactly, whatever stale chunks are in the jar |
| `Cookies.JarRefinesCell` | session.go:205-296 | after any sequence of writes, refused writes and clears from any jar, reading gives the last write that fitted, or nothing after a clear |
| `Cookies.RefusedWriteLimit` | session.go:232-237 | a write is refused exactly beyond 8 x 3500 bytes, and then changes no cookie |
| `Cookies.ClearUndoesEveryWrite` | session.go:287-296 | clearing after any write leaves the jar that clearing alone leaves |
| `Cookies.WrittenCookiesAreSmall` | session.go:218-250 | no cookie a write sets is larger than 3500 bytes, and the base cookie holds the value or the header `chunked:N` with the exact N |
| `Cookies.ChunksSitUnderTheirNames` | session.go:245-248 | chunk m is the text's m-th 3500 bytes, under the base name, an underscore and m |
| `Cookies.ReassembleExact` | session.go:268-282 | reassembly succeeds exactly when every announced chunk is there and legal, and then joins exactly those |
| `Cookies.ReaderIsTotal` | session.go:263-283 | for every hostile jar a chunked header is rejected or yields a complete set of at most 8 x 3500 bytes, with the exact condition |
| `Payload.SessionPayload.SetFromUser` | session.go:123-135 | the nine user fields are replaced and no session field moves |
| `Payload.UserRoundTrip` | session.go:107-135 | a user put into a session is read out again in every field but auth_time and landing, and the stored identity is that user without what a resolver sets |
| `Identity.RedirectsExactly` | user.go:174-202 | a landing is followed exactly for the three redirecting decisions with a URL |
| `Admission.LoginExactly` | auth.go:783-886 | a login is refused exactly when a gate or the resolver refuses, whatever the resolver's user; otherwise it stores that user and the retained tokens and lands where the decision says |
| `Admission.RefusalNamesTheFirstGate` | admission.go:54-73 | a refusal is named after the first gate that failed: verification, domain, resolver |
| `Admission.RevalidationRechecksTheGate` | reresolve.go:154-194 | a live session's email gate is re-checked on the refreshed token of the same subject, else on the stored identity |
| `Admission.ApplyResolutionTo` | reresolve.go:121-136 | the record after the steps is the specified resolution of the record before |
| `Admission.ReasonIsResolverFailure` | admission.go:117-130 | a refusal is named a resolver failure exactly when it is one and wraps no gate error |
| `Admission.SoftExactlyOnCleanFailure` | reresolve.go:69-80 | fail-open exactly when the gates pass and the resolver erred without wrapping a gate error |
| `Admission.ReresolveAgreesWithLogin` | reresolve.go:66-136 | soft, ended or applied match the login's verdict on the same answer; what is stored is what login stores except a picked organization still held |
| `Admission.ErrorWrappingAGateEndsTheSession` | admission.go:117-124 | a resolver error ends the session if and only if it wraps a gate error |
| `Admission.LoginStoresAuthTime` | auth.go:771-810 | the resolver cannot move the auth_time a login stores |
| `Admission.StepUpSessionIsRecent` | auth.go:774-810 | an admitted step-up login stores an auth_time of at least start less max_age less 30 s |
| `Admission.PickSurvives` | reresolve.go:129-135 | a picked organization survives any run of answers that contain it |
| `Admission.PickIsDropped` | reresolve.go:129-135 | the first answer without the pick replaces it by the answer's own organization |
| `StepUp.MarkerRoundTrip` | stepup.go:139-159 | whatever max_age and start the login accepts, the callback reads back both |
| `StepUp.MarkerExactly` | stepup.go:145-159 | a marker is an accepted max_age, a dot and a positive start second, and nothing else is one |
| `StepUp.MaxAgeExactly` | stepup.go:120-137 | exactly the texts of up to ten digits with a value up to 2^31 - 1 are a max_age |
| `StepUp.EveryMaxAgeCanBeAsked` | stepup.go:120-137 | every number up to 2^31 - 1, as printed, is accepted as itself |
| `StepUp.OnlyStepUpsAreChecked` | stepup.go:181-219 | a login without max_age asks nothing of auth_time; a malformed parameter or marker is refused |
| `StepUp.RecentExactly` | stepup.go:75-94 | recent means known, and at most a window old or 30 s in the future |
| `StepUp.StaleStaysStale` | stepup.go:247-267 | a window after the stored auth_time no run of refreshes makes it recent |
| `StepUp.MaxAgeProductFits` | stepup.go:174 | the nanosecond product never leaves int64 |
| `StepUp.StepUpAdmitsExactly` | stepup.go:161-219 | a callback of a max_age login is admitted if and only if auth_time is known and at least start less max_age less 30 s |
| `StepUp.ForcedStepUpOpensTheDoor` | stepup.go:75-94 | after an admitted max_age=0 login RecentlyAuthenticated holds until start plus window less 30 s |
| `StepUp.MergeAllIsEarliestKnown` | stepup.go:247-267 | any run of refreshes leaves the smallest known auth_time |
| `StepUp.MergeAllOrderFree` | stepup.go:247-267 | order and repetition of refreshed values do not matter |
| `StepUp.RefreshesNeverOpenTheDoor` | stepup.go:85-94 | no run of refreshes turns RecentlyAuthenticated true exactly when the stored time is known and not beyond the skew in the future |
| `Revalidate.TransportBackoff` | revalidate.go:362-372 | the backoff is below the interval, at most 30 s, and at least a second for intervals of two |
| `Revalidate.LegacySessionKeepsItsIssueAnchor` | revalidate.go:328-348 | a session without a recorded validation falls due an interval after its issue time, up to a second of rounding; with whole-second TTLs exactly an interval after the second it was issued in |
| `Revalidate.DueExactly` | revalidate.go:86-100 | when the provider and when the resolver alone is asked, in instants |
| `Revalidate.SignedOutExactly` | revalidate.go:146-205 | a session ends exactly on `invalid_grant` or an ended resolution, on no other error and no abandoned flight |
| `Revalidate.FailedGrantIsRetried` | revalidate.go:350-372 | after a failed grant the provider is asked again 30 s later, or half a shorter interval, to the second |
| `Revalidate.SoftAnswerIsRetried` | revalidate.go:203-219 | after a soft answer the resolver alone is asked as long later, and the provider only after a full interval |
| `Revalidate.UnaskableSessionIsKept` | revalidate.go:105-115 | a session without a refresh token is kept as it is |
| `Revalidate.Revalidator.MaybeRevalidateRecord` | revalidate.go:86-100 | the dispatch on the record ends in the specified payload, write and sign-out |
| `Revalidate.Revalidator.RevalidateAtIdp` | revalidate.go:104-242 | the assignments after a grant give the specified payload in every branch |
| `Revalidate.Revalidator.RetryResolution` | revalidate.go:257-294 | the assignments after a resolver retry give the specified payload in every branch |
| `Revalidate.Revalidator.PersistBackoff` | revalidate.go:357-360 | only the anchor moves, never Exp |
| `Handlers.AccessTokenKeepsTheLiveToken` | auth.go:504-523 | the stored refresh token stays live if and only if a rotation also minted an access token |
| `Handlers.RotationWithoutANewAccessTokenIsDropped` | auth.go:504-511 | an instance: the provider rotates with the same access token, and the stored refresh token is a consumed one |
| `Handlers.HandlersKeepTheFloor` | auth.go:279-359 | no list of handler calls moves Exp, the ID token, auth_time, the source or either retry anchor |
| `Handlers.LastUpdateIsStored` | auth.go:279-359 | after any list of calls the profile is that of the last update, and the one before if there was none |
| `Handlers.LastAccessIsStored` | auth.go:499-525 | after any list of calls the session holds the access token its last refresh brought |
| `Handlers.NewAccessTokenIsStored` | auth.go:506-511 | a new access token is stored with its expiry and its refresh token, and nothing else changes |
| `Handlers.HandlersKeepTheLiveToken` | auth.go:483-526 | any list of handler calls keeps the session on a live refresh token and never loses it |
| `Handlers.AfterTheRotation` | auth.go:279-359 | without the middleware, once the carried token is consumed no further AccessToken is answered, and any update puts the consumed token back |
| `Handlers.UnmanagedKeepsTheLiveToken` | auth.go:266-291 | without the middleware, any list of calls leaves a live token if and only if the first rotation was stored and no update follows it |
| `Handlers.LastUnmanagedWriteWins` | auth.go:266-291 | without the middleware updates do not compound: the last write wins, and an AccessToken's write undoes an update |
| `Handlers.RotationIsLostWithoutMiddleware` | auth.go:266-291 | an instance: AccessToken then UpdateSession leave the consumed token in the browser |
| `SessionSync.HandleSyncCallback` | sessionsync.go:147-282 | the branches on the record give the specified verdict, cookie effect and payload |
| `SessionSync.ConfirmSession` | sessionsync.go:243-269 | the re-stamp of a confirmed session, without tokens or sid for a grant-minted one |
| `SessionSync.ClearsExactlyOnAVerdict` | sessionsync.go:170-241 | a session is cleared if and only if on an explicit no-session code for a redirect session or a verified mismatch |
| `SessionSync.VerdictOnAnIdentity` | sessionsync.go:225-282 | the same person in the same sign-in renews the session for a full TTL with the exchange's tokens unless grant-minted; anybody else ends it |
| `SessionSync.VerdictOnACode` | sessionsync.go:176-204 | the four no-session codes sign a redirect session out and leave a grant-minted one; every other code is no verdict |
| `SessionSync.TroubleLeavesTheSession` | sessionsync.go:157-229 | a callback in which the provider names nobody leaves the session alone |
| `SessionSync.SyncNeverGrants` | sessionsync.go:141-282 | no run of syncs creates a session; subject, source, auth_time, organization and a known sid never change; a grant-minted session adopts nothing |
| `SessionSync.RecordedSignInIsCompared` | sessionsync.go:294-305 | after any run of syncs a different known sign-in clears a session that recorded one |
| `SessionSync.FirstSignInIsRecorded` | sessionsync.go:265-269 | an empty sid is filled by the first known sign-in and kept through any later run |
| `SessionRuns.LifeBound` | revalidate.go:216-230 | over every run: no future stamp, Exp within a TTL of now, and within a TTL of the last success unless the events contain a retry applied after a failed grant with no success since; under whole-second TTLs and intervals of two seconds, exactly then |
| `SessionRuns.StretchedExactly` | revalidate.go:286-291 | the run's history of a stretched Exp is equivalent to that pattern of events |
| `SessionRuns.GuardedLifeBound` | revalidate.go:286-291 | the intended bound for runs where no grant fails open while a retry is pending |
| `SessionRuns.GuardedRunsDoNotStretch` | revalidate.go:257-294 | in such runs no retry is applied from a backoff's anchor |
| `SessionRuns.OverlongRunIsPossible` | revalidate.go:286-291 | the concrete run that passes the bound by 30 s without that guard |
| `SessionRuns.OutagesGiveNoLife` | revalidate.go:158-168 | no fail-open and no soft-failed answer changes Exp, whatever the handler does |
| `SessionRuns.OutageRunsGiveNoLife` | revalidate.go:203-219 | nor does any run of outages, of either provider, however long |
| `SessionRuns.StampsStayBounded` | revalidate.go:216-217 | every step keeps LastValidated out of the future and Exp within a TTL of now |
| `SessionRuns.AnchorStays` | revalidate.go:357-360 | LastValidated is the last success, moved later only by a backoff since |
| `SessionRuns.LifeStaysBounded` | revalidate.go:286-291 | every step keeps Exp within a TTL of the last success unless stretched |
| `SessionRuns.StretchStaysExact` | revalidate.go:286-291 | and a stretched Exp really is beyond it |
| `SessionRuns.PaceStays` | revalidate.go:343-372 | every step leaves the anchor accounting for the last grant |
| `SessionRuns.AsksStaySpaced` | revalidate.go:86-100 | every step keeps consecutive grants spaced by what the earlier one bought |
| `SessionRuns.GrantRate` | revalidate.go:86-100 | grants are more than interval (or backoff) less a second apart, so a window holds at most its length over that distance, plus one, whatever the resolver answers |
| `SessionRuns.GrantKeysStayFresh` | revalidate.go:126-127 | every due grant moves the anchor past all earlier ones |
| `SessionRuns.RetryKeysStayFresh` | revalidate.go:259-260 | no answered retry's key can come back |
| `SessionRuns.DueStepsMoveTheirKey` | revalidate.go:216-217 | a persisted due grant strictly raises LastValidated, a soft retry strictly raises ResolveRetryAt, second truncation included |
| `SessionRuns.DueStepsNeverShareAKey` | revalidate.go:117-127 | the keys of one browser's successive due steps are pairwise distinct |
| `SessionRuns.EarlierFlightsAreNotRejoined` | revalidate.go:117-124 | in flight keys: the next due step never joins a retained flight of an earlier one |
| `SessionRuns.TokensStayInAgreement` | revalidate.go:171-192 | every step keeps the cookie's refresh token live at the provider, and never empties it, when AccessToken's rotations mint access tokens |
| `SessionRuns.CookieTokenIsLive` | revalidate.go:171-219 | over every run whose AccessToken rotations mint access tokens, the cookie's refresh token is one the provider accepts and has not consumed |
| `SessionRuns.AuthTimeOverRuns` | revalidate.go:194-196 | over every run auth_time is the smallest known of the login's and all refreshed ones |
| `SessionRuns.EveryRunKeepsInv` | revalidate.go:86-372 | the invariants on stamps, life, pace, keys and auth_time hold together in every reachable state |
| `SessionHistory.LastProfileIsShown` | reresolve.go:117-136 | over every run the profile is that of the last login, update, applied resolution or recorded sign-in |
| `SessionHistory.AppliedAnswerIsShown` | revalidate.go:220-222 | a request that brings an applied answer leaves the answer's memberships, roles, claims and subject, on the picked organization if the answer has it, else its own |
| `SessionHistory.LastStampsAreKept` | revalidate.go:198-294 | over every run LastValidated, ResolveRetryAt and Exp are exactly those of the last event that set them |
| `SessionHistory.LastAccessIsForwarded` | auth.go:499-525 | over every run the access token is that of the last login, grant, sync or refresh |
| `SessionHistory.GrantedTokensAreStored` | revalidate.go:171-192 | a granted check stores the whole token set, and an omitted refresh token keeps the old one |
| `SessionHistory.OriginIsKept` | session.go:75-87 | over every run the ID token and the source are those the session was minted with |
| `SessionHistory.OnlyRedirectLoginsAreSignedOut` | auth.go:445-456 | `login_required` leaves an inline login as it is and signs a redirect login out |
| `SessionHistory.StepUpGoesStale` | stepup.go:247-267 | over every run a session is not recent once a window has passed since its login's auth_time |
| `Flights.FlightKeyInjective` | revalidate_flight.go:137-147 | equal hashed texts mean equal kind and equal parts |
| `Flights.GrantKeyIdentifies` | revalidate.go:117-127 | two grants share a flight if and only if subject, refresh token, LastValidated and Exp agree |
| `Flights.ResolveKeyIdentifies` | revalidate.go:259-260 | a retry never shares a grant's flight, and another retry's only for the same pending retry |
| `Flights.RevalFlights.DropExpired` | revalidate_flight.go:125-135 | exactly the expired calls leave the map |
| `Flights.RevalFlights.PruneLocked` | revalidate_flight.go:124-135 | the object's prune is the specified one |
| `Flights.RevalFlights.Join` | revalidate_flight.go:87-103 | the first critical section prunes, then joins the key's call or starts a fresh one |
| `Flights.RevalFlights.SetResult` | revalidate_flight.go:118-119 | the leader writes the result of its own call only |
| `Flights.RevalFlights.FinishCall` | revalidate_flight.go:106-117 | the deferred section finishes the call, and on a panic abandons it and forgets only its key |
| `FlightSystem.StepKeepsInv` | revalidate_flight.go:86-135 | every step of every request, grant or resolver retry, keeps the group's invariant |
| `FlightSystem.OneLeaderPerKey` | revalidate_flight.go:86-135 | in every reachable state at most one leader runs per key of either kind, and pruning cannot drop its call |
| `FlightSystem.ReturnsAgree` | revalidate_flight.go:92-121 | results are returned only when written, agree among all callers of a call, and are the fail-open outcome after a panic |
| `FlightSystem.FinishedCallsAreStable` | revalidate_flight.go:106-121 | a finished call is never written again |
| `FlightSystem.WaitersAreReleased` | revalidate_flight.go:94-117 | a waiter's call is finished or its leader can move |
| `FlightSystem.ArrivalLeadsExactly` | revalidate_flight.go:91-103 | an arrival of either kind leads if and only if every earlier call of its key panicked or finished ten seconds ago |
| `FlightSystem.LateStragglerAsksAgain` | revalidate.go:146-168 | under exactly that condition a request with a consumed token leads; it is then signed out if and only if the answer is invalid_grant, and backed off otherwise |
| `FlightSystem.RetentionAddsTenSeconds` | revalidate.go:216-230 | over every interleaving, the LastValidated and Exp a request stamps from a shared grant lie below the flight's end plus 10 s (plus a TTL) |
| `FlightSystem.StepKeepsGrants` | revalidate_flight.go:101-121 | at most one grant per call, sent by its leader, one for every completed call at the provider, and none for a resolver retry |
| `FlightSystem.RunKeepsOneFlight` | revalidate_flight.go:83-121 | a calm run keeps the cookie on one flight whose token is live until presented |
| `FlightSystem.TokenPresentedOnce` | revalidate.go:117-131 | no two grants present the cookie's token |
| `FlightSystem.PanicReleasesItsWaiters` | revalidate_flight.go:105-117 | a panicking leader removes its own call from the map and no other, and its waiters read the fail-open outcome |
| `FlightSystem.StepKeepsTokens` | revalidate.go:171-192 | every token an answer brought stays accepted by the provider until somebody presents it |
| `FlightSystem.NoSelfInflictedSignOut` | revalidate.go:125-196 | in every calm interleaving: one grant, no invalid_grant, one answer, one rotated token, usable whichever response the browser stores last |
| `FlightSystem.StepKeepsHandlers` | auth.go:499-523 | handlers hold the flight's token only after a failed flight, and present it as soon as one of them refreshes |
| `FlightSystem.PresentedOnceExactly` | auth.go:499-523 | a handler presents the token again if and only if the flight failed open and a handler of a request it served refreshed |
| `FlightSystem.RefreshAfterAnOutageStrandsTheOthers` | auth.go:499-523 | such a rotation consumes the token that every other request's backed-off session carries |
| `OutageRun.SecondTabIsSignedOut` | auth.go:499-523 | the concrete run: two tabs share a failed flight, one's handler refreshes, the other is refused at its next check and signed out |
| `BrowserRuns.JoinedCallDelivers` | revalidate_flight.go:92-100 | a request that joins a finished flight of either kind holds a token the provider accepts |
| `BrowserRuns.MoveKeepsSignedIn` | revalidate.go:86-294 | every calm send, step and stored answer keeps every pending request on an accepted or forthcoming token, and the jar too unless such a request is still to be answered |
| `BrowserRuns.BrowserStaysSignedIn` | revalidate.go:86-294 | over any calm run of flights no request reads invalid_grant, every answer fits its request, only an ended resolution empties the jar, and a jar at rest carries a token the provider accepts |
| `HealthyRun.TwoTabsShareOneGrant` | revalidate_flight.go:83-135 | a calm run exists: two tabs share one grant, store the rotated token, and the next flight starts with it |
| `RequestScope.WrittenSessionIsRead` | session.go:218-285 | a session written with its encryption is decoded from any jar |
| `RequestScope.DecodeExactly` | session.go:252-285 | a cookie is missing, unreadable, expired after its last second, or the session, each exactly when |
| `RequestScope.RequestScope.WriteSession` | session.go:218-250 | a persisted write makes the jar decode to the payload; a failed one changes no cookie |
| `RequestScope.RequestScope.Serve` | auth.go:204-231 | the middleware's hand-off: what is on the context, what is in the jar, and that they agree |
| `RequestScope.RequestScope.CurrentSession` | user.go:332-348 | the served payload itself, the recorded refusal, or the request's cookie |
| `RequestScope.RequestScope.Call` | auth.go:279-359 | each call does its operation on the shared payload, keeps the jar faithful to it, and does nothing after a refusal |
| `RequestScope.RequestScope.Handle` | auth.go:279-359 | any list of calls compounds on one payload; after a refusal the jar never regains a session |
| `RequestScope.RequestScope.HandleRequest` | auth.go:121-180 | a whole request leaves in the jar what the run model's visit leaves in its cell |
| `RequestScope.RequestScope.HandleUnmanaged` | user.go:337-348 | on the jar and the record, calls without the middleware leave what the unmanaged run says |
| `SharedAnswers.CloneMemberships` | reresolve.go:138-149 | equal content, no row slice or team slice in common with the original, and none shared between rows |
| `SharedAnswers.CloneRefs` | reresolve.go:121-125 | nothing the original reaches is reachable from the copy |
| `SharedAnswers.HeapPayload.ApplyAnswer` | reresolve.go:117-136 | on the heap, the payload becomes the specified resolution and owns all it references |
| `SharedAnswers.ServeCaller` | reresolve.go:117-120 | a caller ends with its own handler's writes on the resolution, and the retained answer is as it was |
| `SharedAnswers.ServeCallers` | revalidate_flight.go:53-68 | any number of callers, the last straggler included, apply the leader's answer, and each ends with its own handler's writes on it and nobody else's |
| `ObolResolver.NormalizeHosts` | obolresolver/obolresolver.go:465-482 | the non-blank configured hosts in order, trimmed and case-folded, and nothing else |
| `ObolResolver.HostIsAllowed` | obolresolver/obolresolver.go:484-492 | the scan finds the folded host exactly when it is listed |
| `ObolResolver.HostsMatchInAnyCase` | obolresolver/obolresolver.go:465-492 | a host is allowed exactly when a configured one is the same but for letter case and surrounding white space |
| `ObolResolver.TrimSpaceExactly` | obolresolver/obolresolver.go:473 | nothing but white space is trimmed, and all of it at both ends |
| `ObolResolver.AdmissionAndRedirectionAgree` | obolresolver/obolresolver.go:429-458 | a login follows a landing exactly for a redirecting decision with an http(s) URL on an allowed host without credentials; the decision itself always reaches the consumer |
| `ObolResolver.ConvertMemberships` | obolresolver/obolresolver.go:352-370 | every row in order, each field as it was |
| `ObolResolver.ResolveUser` | obolresolver/obolresolver.go:291-349 | the closure's assignments give the specified answer |
| `ObolResolver.ResolverExactly` | obolresolver/obolresolver.go:291-349 | a person in organizations gets all of them with the first active; one in none is passed on only towards a redirecting landing or by allowance; nothing else changes |
| `ObolResolver.BackendOutageEndsNothing` | obolresolver/obolresolver.go:260-289 | an unreachable backend keeps a live session and refuses a login |
| `ObolResolver.AppliedAnswerNamesItsOrg` | obolresolver/obolresolver.go:293-349 | an applied answer is org-less exactly when empty sets are allowed and no landing redirects; otherwise the session is on one of its organizations |
| `ObolResolver.ResolutionKeepsTheOrg` | reresolve.go:91-136 | a re-resolution ends the session, leaves it unchanged, or leaves it on one of its organizations |
| `ObolResolver.OrgSurvivesEveryRun` | reresolve.go:66-175 | over any run of re-resolutions a session on one of its organizations stays so, with its subject, or ends |
| `Discovery.DiscoverWithRetry` | discovery_retry.go:48-127 | for every budget the loop, with its wrapped shifts, or the single attempt, computes the function the theorems are about |
| `Discovery.DiscoveryEndsExactly` | discovery_retry.go:48-127 | a provider is returned exactly when the last attempt found one within its time, an error exactly on a permanent answer or when no time is left to wait, and every earlier attempt failed transiently or was cut off |
| `Discovery.EveryBackoffIsPossible` | discovery_retry.go:100-104 | every backoff from the base delay to half as much again can be drawn |
| `Discovery.OverflowStartsAt35` | discovery_retry.go:96 | int64 holds the shifted delay up to shift 34 and not at 35 |
| `Discovery.BackoffRange` | discovery_retry.go:96-104 | until then every backoff lies in [0.5 s, 12 s) |
| `Discovery.ShiftNeedsTime` | constants.go:354-363 | fewer than 255.5 s of backoffs lie before an attempt exactly up to attempt 35 |
| `Discovery.NoAttemptPassesTheDeadline` | discovery_retry.go:57-75 | no attempt of the loop reaches past the deadline, for any positive budget and environment |
| `Discovery.SafeLoop` | discovery_retry.go:56-127 | within the safe budget the loop stops by itself after at most 35 attempts |
| `Discovery.SafeExactlyUpTo255Seconds` | discovery_retry.go:96-110 | no environment reaches an overflowing shift if and only if the budget is at most 255.5 s |
| `Decimal.ParseFormat` | stepup.go:141-154 | printed int64 values parse back |
| `Decimal.ParseIntExactly` | stepup.go:154 | digits with an optional sign parse to their value within int64 and not beyond |

## Left out

- AES-GCM, SHA-256, JSON and base64 themselves, and the wire traffic with the provider and the identity backend: codec, key text and answers are parameters.
- Payload.SessionPayload.SetFromUser: fromUser's nine field assignments are one assignment of a nine-field profile; the other fields are updated one by one.
- Payload.SessionPayload: integers are unbounded; that unix seconds fit int64 is not part of the model. Rounding of Seconds() through float64 for TTLs of many years and the saturation of time.Duration are not modelled.
- SessionRuns.CookieTokenIsLive: requests of one browser follow each other and their writes persist; several replicas, lost responses and a browser that evicts cookies by their Expires attribute are outside the source's promise too.
- SessionRuns.GrantRate: counts revalidation grants by the start of their request; the refreshes AccessToken makes on its own are not counted.
- SessionRuns.CookieTokenIsLive: a grant that fails consumes nothing; a provider that consumes the token and then fails to answer is a lost response.
- FlightSystem.NoSelfInflictedSignOut: the cookie's own resolver retries are kept out of its calm runs, because their handlers may refresh with the same token; other sessions' retries run through the group freely. `BrowserRuns` has both kinds for one browser.
- FlightSystem.NoSelfInflictedSignOut: a cancelled waiter fails open in `do`; its browser has given it up, so its later backoff write and its handler's calls, made under a cancelled context, are not followed.
- FlightSystem.PresentedOnceExactly: requests served before the cookie fell due may refresh too; they are outside this system. Every rotation a handler gets is taken to come with a new access token.
- BrowserRuns.BrowserStaysSignedIn: one browser and its own flights; a stored answer is stored whole, and a response lost on the way keeps its request pending for ever.
- FlightSystem.WaitersAreReleased: that the leader's work ends is the timeout of its detached context, which is not modelled; a leader can always move, and no fairness is assumed.
- Flights.RevalFlights.FinishCall: only the group's own critical sections are methods; goroutine scheduling is the step relation of `FlightSystem`.
- RequestScope.RequestScope.Call: the mutate callbacks are given by the User they produce, and AccessToken's error results are not told apart. RequireSession, which does not run the handler after a refusal, is the case of an empty list of calls.
- RequestScope.RequestScope.Serve: one value per cookie name; duplicate cookies of one name are not modelled.
- SharedAnswers.ServeCaller: handlers that write through the slices of UserFromContext are excluded, and Go's nil and empty slices have equal values.
- SessionSync.HandleSyncCallback: a callback is given by the first thing it finds out; cookies of the flow and the HTML answer are left out, as is the mint of the sync redirect.
- ObolResolver.NormalizeHosts: case folding is ASCII and white space is Latin-1; url.Parse is a parameter.
- Admission.ReresolveAgreesWithLogin: the email-domain gate's verdict is a parameter, and the redirect after a login is only whether and where a landing sends the browser.
- SessionHistory.LastAccessIsForwarded: every answered refresh brings a non-empty access token, as the oauth2 client demands of the provider.
- StepUp.StepUpAdmitsExactly: extractAuthTime's float64 is already a whole number of seconds.
- Discovery.DiscoverWithRetry: an error is transient or permanent as given, without the string classification; the environment is a finite list, at whose end the caller gives up.
- DeferredAuth, the staff gate, redirect helpers, HTML, headers, logging and the rest of the configuration checks: single-branch facts that would only add easy members.
