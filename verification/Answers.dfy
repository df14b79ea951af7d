/** What the identity provider and the resolver answer, and what a flight shares of it. */
module Answers {
  import opened Wrappers
  import opened Clock
  import opened Identity

  /** An OAuth2 token set. */
  datatype Token = Token(access: string, refresh: string, expiry: Time)

  /** A failed grant: an RFC 6749 error response, no answer at all, or abandoned shared work. */
  datatype GrantError = Retrieve(code: string) | Transport | Abandoned

  const INVALID_GRANT := "invalid_grant"

  /** isSessionRevoked: only the explicit `invalid_grant` verdict ends a session. */
  predicate IsSessionRevoked(e: GrantError) {
    e.Retrieve? && e.code == INVALID_GRANT
  }

  /** reresolveOutcome with the admitted answer it carries when applied. */
  datatype Outcome = Applied(resolved: User) | Soft | Ended

  /** revalShared: the outcome of one revalidation's network work. */
  datatype Shared =
    | Failed(err: GrantError)
    | Granted(tokens: Token, aut: int, reresolved: Option<Outcome>)
    | Resolved(outcome: Outcome)

  /**
   The provider's refresh tokens: those it still accepts and those it has consumed.
   A rotating provider moves a token from `live` to `spent` on its first use.
   */
  datatype Idp = Idp(live: set<string>, spent: set<string>)

  ghost predicate Sound(idp: Idp) {
    idp.live !! idp.spent && "" !in idp.live
  }

  /** A token response either keeps the presented refresh token (possibly by omitting it) or mints a new one. */
  predicate MayAnswer(idp: Idp, presented: string, minted: string) {
    && presented in idp.live
    && (minted == "" || minted == presented || (minted !in idp.live && minted !in idp.spent))
  }

  predicate Rotates(presented: string, minted: string) {
    minted != "" && minted != presented
  }

  function AfterRefresh(idp: Idp, presented: string, minted: string): Idp {
    if Rotates(presented, minted) then
      Idp(idp.live - {presented} + {minted}, idp.spent + {presented})
    else idp
  }
}
