/** The public User, its memberships and the landing decision (user.go). */
module Identity {
  import opened Wrappers
  import opened Clock

  datatype Membership = Membership(
    orgId: string, orgName: string, orgSlug: string, role: string,
    teamIds: seq<string>, securityOfficer: bool)

  datatype Landing = Landing(decision: string, url: string)

  /** `authTime` and `landing` are None for Go's zero time and nil pointer. */
  datatype User = User(
    sub: string, email: string, emailVerified: bool, name: string,
    orgId: string, memberships: seq<Membership>, claims: map<string, string>,
    realmRoles: seq<string>, sessionId: string,
    authTime: Option<Time>, landing: Option<Landing>)

  const ONBOARDING := "onboarding"
  const ORG_SELECTION := "org_selection"
  const CLOSED_BETA := "closed_beta"

  /** The one list of decisions that send the browser to the landing URL. */
  predicate LandingDecisionRedirects(decision: string) {
    decision in {ONBOARDING, ORG_SELECTION, CLOSED_BETA}
  }

  function RedirectTarget(landing: Option<Landing>): Option<string> {
    if landing.None? || landing.value.url == "" then None
    else if !LandingDecisionRedirects(landing.value.decision) then None
    else Some(landing.value.url)
  }

  predicate HasNoOrg(u: User) {
    u.orgId == "" && u.memberships == []
  }

  predicate IsMemberOf(memberships: seq<Membership>, orgId: string) {
    exists i :: 0 <= i < |memberships| && memberships[i].orgId == orgId
  }

  /** Only the three decisions that want a redirect are followed, and only with a URL. */
  lemma RedirectsExactly(decision: string, url: string)
    ensures RedirectTarget(None).None?
    ensures RedirectTarget(Some(Landing(decision, url))) ==
            if url != "" && (decision == "onboarding" || decision == "org_selection" || decision == "closed_beta")
            then Some(url) else None
  {
  }
}
