/** The reference resolver (obolresolver/obolresolver.go): its decision once the response is decoded. */
module ObolResolver {
  import opened Wrappers
  import opened Identity
  import opened Payload
  import opened Config
  import opened Admission

  /** One membership row of the identity backend's response. */
  datatype EnsureMembership = EnsureMembership(
    orgId: string, orgName: string, orgSlug: string, role: string, teamIds: seq<string>, securityOfficer: bool)

  datatype EnsureLanding = EnsureLanding(decision: string, landingUrl: string)

  /** The call failed before an answer was decoded, or answered. */
  datatype EnsureResponse =
    | CallFailed(err: Error)
    | Decoded(memberships: seq<EnsureMembership>, landing: Option<EnsureLanding>)

  /** What url.Parse says about a landing URL. */
  datatype ParsedUrl = Unparsable | Url(scheme: string, host: string, hasUserInfo: bool)

  // ----- hosts -----

  function LowerChar(c: char): char {
    if 'A' <= c <= 'Z' then (c as int + 32) as char else c
  }

  /** strings.ToLower on the ASCII text of a host. */
  function ToLower(s: string): string {
    seq(|s|, i requires 0 <= i < |s| => LowerChar(s[i]))
  }

  /** unicode.IsSpace within Latin-1. */
  predicate IsSpace(c: char) {
    c in {' ', '\t', '\n', '\U{000B}', '\U{000C}', '\r', '\U{0085}', '\U{00A0}'}
  }

  function TrimSpace(s: string): string
    decreases |s|
  {
    if s == "" then s
    else if IsSpace(s[0]) then TrimSpace(s[1..])
    else if IsSpace(s[|s| - 1]) then TrimSpace(s[..|s| - 1])
    else s
  }

  /** Tab to carriage return, space, next line and no-break space. */
  predicate White(c: char) {
    9 <= c as int <= 13 || c as int in {32, 133, 160}
  }

  predicate Blank(s: string) {
    forall i :: 0 <= i < |s| ==> White(s[i])
  }

  lemma SpaceIsWhite(c: char)
    ensures IsSpace(c) <==> White(c)
  {
  }

  /** `s[i..j]` is `s` without the white space at its ends. */
  predicate Trims(s: string, i: nat, j: nat) {
    i <= j <= |s| && Blank(s[..i]) && Blank(s[j..]) && (i < j ==> !White(s[i]) && !White(s[j - 1]))
  }

  lemma TrimsBehind(s: string, i: nat, j: nat)
    requires s != "" && White(s[0]) && Trims(s[1..], i, j)
    ensures Trims(s, i + 1, j + 1) && s[i + 1..j + 1] == s[1..][i..j]
  {
    var t := s[1..];
    assert s == [s[0]] + t && s[..i + 1] == [s[0]] + t[..i];
    assert forall k :: 0 <= k < |t[..i]| ==> White(t[..i][k]);
    assert s[j + 1..] == t[j..] && s[i + 1..j + 1] == t[i..j];
    assert i < j ==> s[i + 1] == t[i] && s[j] == t[j - 1];
  }

  lemma TrimsBefore(s: string, i: nat, j: nat)
    requires s != "" && White(s[|s| - 1]) && Trims(s[..|s| - 1], i, j)
    ensures Trims(s, i, j) && s[i..j] == s[..|s| - 1][i..j]
  {
    assert s[..i] == s[..|s| - 1][..i];
    assert s[j..] == s[..|s| - 1][j..] + [s[|s| - 1]];
  }

  /** Nothing but white space is trimmed, and all of it at both ends. */
  lemma {:induction false} TrimSpaceExactly(s: string) returns (i: nat, j: nat)
    ensures Trims(s, i, j) && TrimSpace(s) == s[i..j]
    decreases |s|
  {
    i, j := 0, |s|;
    if s != "" {
      SpaceIsWhite(s[0]);
      SpaceIsWhite(s[|s| - 1]);
      if White(s[0]) {
        i, j := TrimSpaceExactly(s[1..]);
        TrimsBehind(s, i, j);
        i, j := i + 1, j + 1;
      } else if White(s[|s| - 1]) {
        i, j := TrimSpaceExactly(s[..|s| - 1]);
        TrimsBefore(s, i, j);
      }
    }
  }

  /** Two ASCII texts that differ at most in the case of letters. */
  predicate SameButCase(s: string, t: string) {
    |s| == |t| && forall i :: 0 <= i < |s| ==>
      || s[i] == t[i]
      || ('A' <= s[i] <= 'Z' && t[i] as int == s[i] as int + 32)
      || ('a' <= s[i] <= 'z' && s[i] as int == t[i] as int + 32)
  }

  /** A landing host is allowed exactly when a configured host is the same but for case and surrounding white space. */
  lemma HostsMatchInAnyCase(host: string, hosts: seq<string>)
    ensures HostAllowed(host, NormalHosts(hosts)) <==>
              host != "" && exists i :: 0 <= i < |hosts| && SameButCase(host, TrimSpace(hosts[i]))
  {
    NormalHostsHold(hosts, ToLower(host));
    forall i | 0 <= i < |hosts| ensures NormalHost(hosts[i]) == ToLower(host) <==>
        SameButCase(host, TrimSpace(hosts[i])) {
      LowerMeansSameButCase(host, TrimSpace(hosts[i]));
    }
  }

  lemma LowerMeansSameButCase(s: string, t: string)
    ensures ToLower(s) == ToLower(t) <==> SameButCase(s, t)
  {
    assert |ToLower(s)| == |s| && |ToLower(t)| == |t|;
    assert forall i :: 0 <= i < |s| ==> ToLower(s)[i] == LowerChar(s[i]);
    assert forall i :: 0 <= i < |t| ==> ToLower(t)[i] == LowerChar(t[i]);
    if SameButCase(s, t) {
      assert forall i :: 0 <= i < |s| ==> LowerChar(s[i]) == LowerChar(t[i]);
    } else if |s| == |t| {
      var i :| 0 <= i < |s| && s[i] != t[i]
               && !('A' <= s[i] <= 'Z' && t[i] as int == s[i] as int + 32)
               && !('a' <= s[i] <= 'z' && s[i] as int == t[i] as int + 32);
      assert ToLower(s)[i] != ToLower(t)[i];
    }
  }

  function NormalHost(h: string): string {
    ToLower(TrimSpace(h))
  }

  function NormalHosts(hosts: seq<string>): seq<string> {
    if hosts == [] then []
    else
      var h := NormalHost(hosts[|hosts| - 1]);
      NormalHosts(hosts[..|hosts| - 1]) + (if h != "" then [h] else [])
  }

  /** Exactly the non-blank configured hosts, trimmed and case-folded. */
  lemma {:induction false} NormalHostsHold(hosts: seq<string>, a: string)
    ensures a in NormalHosts(hosts) <==> a != "" && exists i :: 0 <= i < |hosts| && NormalHost(hosts[i]) == a
  {
    if hosts != [] {
      var front := hosts[..|hosts| - 1];
      NormalHostsHold(front, a);
      assert forall i :: 0 <= i < |front| ==> front[i] == hosts[i];
    }
  }

  /** normalizeHosts: in the configured order, repetitions kept. */
  method NormalizeHosts(hosts: seq<string>) returns (out: seq<string>)
    ensures out == NormalHosts(hosts)
    ensures forall a :: a in out <==> a != "" && exists i :: 0 <= i < |hosts| && NormalHost(hosts[i]) == a
  {
    out := [];
    for n := 0 to |hosts|
      invariant out == NormalHosts(hosts[..n])
    {
      assert hosts[..n + 1][..n] == hosts[..n];
      var h := NormalHost(hosts[n]);
      if h != "" {
        out := out + [h];
      }
    }
    assert hosts[..|hosts|] == hosts;
    forall a ensures a in out <==> a != "" && exists i :: 0 <= i < |hosts| && NormalHost(hosts[i]) == a {
      NormalHostsHold(hosts, a);
    }
  }

  /** hostAllowed. */
  method HostIsAllowed(host: string, allowed: seq<string>) returns (ok: bool)
    ensures ok == HostAllowed(host, allowed)
  {
    var folded := ToLower(host);
    for i := 0 to |allowed|
      invariant folded !in allowed[..i]
    {
      if folded == allowed[i] {
        return true;
      }
    }
    return false;
  }

  predicate HostAllowed(host: string, allowed: seq<string>) {
    ToLower(host) in allowed
  }

  // ----- the landing -----

  predicate UrlAdmitted(url: ParsedUrl, allowed: seq<string>) {
    && url.Url? && url.scheme in {"http", "https"}
    && url.host != "" && !url.hasUserInfo
    && (allowed != [] ==> HostAllowed(url.host, allowed))
  }

  /** admitLanding: the decision always reaches the consumer, its URL only when it may be followed. */
  function AdmitLanding(landing: Option<EnsureLanding>, parse: string -> ParsedUrl,
                        allowed: seq<string>): Option<Landing> {
    match landing
    case None => None
    case Some(l) =>
      if l.landingUrl != "" && LandingDecisionRedirects(l.decision) && UrlAdmitted(parse(l.landingUrl), allowed)
      then Some(Landing(l.decision, l.landingUrl))
      else Some(Landing(l.decision, ""))
  }

  /** The login follows a landing exactly when admission kept its URL, because both read one decision list. */
  lemma AdmissionAndRedirectionAgree(landing: Option<EnsureLanding>, parse: string -> ParsedUrl, allowed: seq<string>)
    ensures var admitted := AdmitLanding(landing, parse, allowed);
            && (RedirectTarget(admitted).Some? <==> admitted.Some? && admitted.value.url != "")
            && (RedirectTarget(admitted).Some? <==>
                  && landing.Some? && landing.value.landingUrl != ""
                  && landing.value.decision in {"onboarding", "org_selection", "closed_beta"}
                  && var url := parse(landing.value.landingUrl);
                     && url.Url? && (url.scheme == "http" || url.scheme == "https")
                     && url.host != "" && !url.hasUserInfo && (allowed == [] || HostAllowed(url.host, allowed)))
            && (landing.Some? ==> admitted.Some? && admitted.value.decision == landing.value.decision)
            && (RedirectTarget(admitted).Some? ==> RedirectTarget(admitted).value == landing.value.landingUrl)
  {
  }

  // ----- the resolver -----

  function ToMembership(m: EnsureMembership): Membership {
    Membership(m.orgId, m.orgName, m.orgSlug, m.role, m.teamIds, m.securityOfficer)
  }

  function ToMemberships(rows: seq<EnsureMembership>): seq<Membership> {
    seq(|rows|, i requires 0 <= i < |rows| => ToMembership(rows[i]))
  }

  /** No field of a row is lost or invented. */
  predicate SameRow(row: EnsureMembership, m: Membership) {
    && m.orgId == row.orgId && m.orgName == row.orgName && m.orgSlug == row.orgSlug && m.role == row.role
    && m.teamIds == row.teamIds && (m.securityOfficer <==> row.securityOfficer)
  }

  /** toVaiMemberships. */
  method ConvertMemberships(rows: seq<EnsureMembership>) returns (out: seq<Membership>)
    ensures out == ToMemberships(rows)
    ensures |out| == |rows| && forall i :: 0 <= i < |rows| ==> SameRow(rows[i], out[i])
  {
    out := [];
    for i := 0 to |rows|
      invariant out == ToMemberships(rows[..i])
    {
      out := out + [ToMembership(rows[i])];
      assert ToMemberships(rows[..i + 1]) == ToMemberships(rows[..i]) + [ToMembership(rows[i])];
    }
    assert rows[..|rows|] == rows;
  }

  datatype Policy = Policy(allowEmptyMembership: bool, allowedHosts: seq<string>, parse: string -> ParsedUrl)

  function Resolve(policy: Policy, user: User, response: EnsureResponse): ResolverAnswer {
    match response
    case CallFailed(err) => Erred(err)
    case Decoded(rows, wire) =>
      var landing := AdmitLanding(wire, policy.parse, policy.allowedHosts);
      if rows == [] then
        if RedirectTarget(landing).Some? || policy.allowEmptyMembership then Answer(user.(landing := landing))
            else NoUser
      else Answer(user.(memberships := ToMemberships(rows), orgId := rows[0].orgId, landing := landing))
  }

  /** The resolver's closure, which fills in the user it was handed. */
  method ResolveUser(policy: Policy, input: User, response: EnsureResponse) returns (answer: ResolverAnswer)
    ensures answer == Resolve(policy, input, response)
  {
    if response.CallFailed? {
      return Erred(response.err);
    }
    var user := input;
    var landing := AdmitLanding(response.landing, policy.parse, policy.allowedHosts);
    if |response.memberships| == 0 {
      if RedirectTarget(landing).Some? {
        user := user.(landing := landing);
        return Answer(user);
      }
      if policy.allowEmptyMembership {
        user := user.(landing := landing);
        return Answer(user);
      }
      return NoUser;
    }
    var memberships := ConvertMemberships(response.memberships);
    user := user.(memberships := memberships);
    user := user.(orgId := response.memberships[0].orgId);
    user := user.(landing := landing);
    return Answer(user);
  }

  /**
   What the resolver makes of an answer. A person in organizations gets every row in order with the first one active;
   a person in none is passed on only towards a redirecting landing or under the explicit allowance; nothing
   else about the person changes.
   */
  lemma ResolverExactly(policy: Policy, user: User, rows: seq<EnsureMembership>, wire: Option<EnsureLanding>)
    ensures var answer := Resolve(policy, user, Decoded(rows, wire));
            var landing := AdmitLanding(wire, policy.parse, policy.allowedHosts);
            && (answer.NoUser? <==> rows == [] && !policy.allowEmptyMembership && RedirectTarget(landing).None?)
            && !answer.Erred?
            && (answer.Answer? ==>
                  && answer.user.landing == landing
                  && answer.user == user.(landing := landing, orgId := answer.user.orgId,
                     memberships := answer.user.memberships)
                  && (if rows == [] then answer.user.orgId == user.orgId && answer.user.memberships == user.memberships
                      else
                        && answer.user.orgId == rows[0].orgId && |answer.user.memberships| == |rows|
                        && forall i :: 0 <= i < |rows| ==> SameRow(rows[i], answer.user.memberships[i])))
  {
  }

  /** A backend that cannot be asked is an error and never an answer: a login is refused, a live session stays. */
  lemma BackendOutageEndsNothing(cfg: Config, policy: Policy, identity: User, err: Error)
    requires cfg.hasUserResolver && (cfg.requireEmailVerified ==> identity.emailVerified) && err !! GATE_SENTINELS
    ensures Reresolve(cfg, identity, DomainOk, Resolve(policy, identity, CallFailed(err))).Soft?
    ensures AdmitIdentity(cfg, identity, DomainOk, Resolve(policy, identity, CallFailed(err))).Refused?
  {
    SoftExactlyOnCleanFailure(cfg, identity, DomainOk, Erred(err));
  }

  /** What revalidation hands a resolver names no organization. */
  predicate Bare(u: User) {
    u.orgId == "" && u.memberships == []
  }

  /** Every membership row names its organization. */
  predicate Named(response: EnsureResponse) {
    response.Decoded? ==> forall i :: 0 <= i < |response.memberships| ==> response.memberships[i].orgId != ""
  }

  /** The active organization is one of the session's memberships. */
  predicate HasActiveOrg(p: Payload) {
    p.profile.orgId != "" && IsMemberOf(p.profile.mbs, p.profile.orgId)
  }

  /** The session after one re-resolution through the resolver; None when it ended. */
  function AfterResolution(cfg: Config, policy: Policy, p: Payload, identity: User, domain: DomainVerdict,
                           response: EnsureResponse): Option<Payload> {
    match Reresolve(cfg, identity, domain, Resolve(policy, identity, response))
    case Soft => Some(p)
    case Ended => None
    case Applied(user) => Some(ApplyResolution(p, user))
  }

  /**
   An organization-less answer gets past the resolver and the login's landing rule exactly when empty
   memberships are allowed and no landing redirects; every other applied answer leaves the session on one
   of its own organizations.
   */
  lemma AppliedAnswerNamesItsOrg(cfg: Config, policy: Policy, p: Payload, identity: User, domain: DomainVerdict,
                                 response: EnsureResponse)
    requires cfg.hasUserResolver && Bare(identity) && Named(response)
    ensures var outcome := Reresolve(cfg, identity, domain, Resolve(policy, identity, response));
            outcome.Applied? ==>
              && (HasNoOrg(outcome.resolved) <==>
                    && response.memberships == [] && policy.allowEmptyMembership
                    && RedirectTarget(AdmitLanding(response.landing, policy.parse, policy.allowedHosts)).None?)
              && (!HasNoOrg(outcome.resolved) ==> HasActiveOrg(ApplyResolution(p, outcome.resolved)))
  {
    var outcome := Reresolve(cfg, identity, domain, Resolve(policy, identity, response));
    if outcome.Applied? && response.memberships != [] {
      assert outcome.resolved.memberships[0].orgId == response.memberships[0].orgId;
    }
  }

  /**
   Without empty memberships, one re-resolution ends the session, leaves it as it was, or leaves it on one of
   its organizations.
   */
  lemma ResolutionKeepsTheOrg(cfg: Config, policy: Policy, p: Payload, identity: User, domain: DomainVerdict,
                              response: EnsureResponse)
    requires cfg.hasUserResolver && !policy.allowEmptyMembership && Bare(identity) && Named(response)
    ensures var next := AfterResolution(cfg, policy, p, identity, domain, response);
            next.None? || next == Some(p) || HasActiveOrg(next.value)
  {
    AppliedAnswerNamesItsOrg(cfg, policy, p, identity, domain, response);
  }

  /**
   One re-resolution of a run: the refreshed ID token's user if one verified, the domain gate's verdict and the
   response.
   */
  datatype Round = Round(refreshed: Option<User>, domain: DomainVerdict, response: EnsureResponse)

  /** ID tokens name no organization, and every response row names its own. */
  predicate Regular(round: Round) {
    (round.refreshed.Some? ==> Bare(round.refreshed.value)) && Named(round.response)
  }

  function AfterRound(cfg: Config, policy: Policy, p: Payload, round: Round): Option<Payload> {
    AfterResolution(cfg, policy, p, RevalidationIdentity(p, round.refreshed), round.domain, round.response)
  }

  /** A run of re-resolutions; None once the session has ended. */
  function RunResolutions(cfg: Config, policy: Policy, cell: Option<Payload>, run: seq<Round>): Option<Payload>
    decreases |run|
  {
    if run == [] || cell.None? then cell
    else RunResolutions(cfg, policy, AfterRound(cfg, policy, cell.value, run[0]), run[1..])
  }

  /** A session that is on one of its organizations stays so, and stays its person's, through any run, or ends. */
  lemma {:induction false} OrgSurvivesEveryRun(cfg: Config, policy: Policy, p: Payload, run: seq<Round>)
    requires cfg.hasUserResolver && !policy.allowEmptyMembership && HasActiveOrg(p)
    requires forall i :: 0 <= i < |run| ==> Regular(run[i])
    ensures var last := RunResolutions(cfg, policy, Some(p), run);
            last.Some? ==> HasActiveOrg(last.value) && last.value.profile.sub == p.profile.sub
    decreases |run|
  {
    if run != [] {
      var round, next := run[0], AfterRound(cfg, policy, p, run[0]);
      ResolutionKeepsTheOrg(cfg, policy, p, RevalidationIdentity(p, round.refreshed), round.domain, round.response);
      if next.Some? {
        OrgSurvivesEveryRun(cfg, policy, next.value, run[1..]);
      }
    }
  }
}
