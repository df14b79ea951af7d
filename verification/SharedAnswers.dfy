/**
 Why one retained answer can serve many requests (reresolve.go). Go's slices and maps are references,
 so here memberships, team ids and roles are arrays and claims an object: what a handler changes in
 its own session must not reach the answer that later callers of the flight still apply.
 */
module SharedAnswers {
  import opened Identity
  import opened Payload
  import opened Admission

  /** A Go map of claims. */
  class Claims {
    var m: map<string, string>

    constructor (m: map<string, string>)
      ensures this.m == m
    {
      this.m := m;
    }
  }

  /** A Membership whose team ids are a slice. */
  datatype Row = Row(orgId: string, orgName: string, orgSlug: string, role: string,
                     teamIds: array?<string>, securityOfficer: bool)

  /** The references inside a User or a payload; null is Go's nil. */
  datatype Refs = Refs(memberships: array?<Row>, claims: Claims?, roles: array?<string>)

  ghost function Teams(rows: seq<Row>): set<object> {
    set i | 0 <= i < |rows| && rows[i].teamIds != null :: rows[i].teamIds as object
  }

  /** No two rows share a team slice. */
  ghost predicate OwnTeams(rows: seq<Row>) {
    forall i, j :: 0 <= i < j < |rows| && rows[i].teamIds != null ==> rows[i].teamIds != rows[j].teamIds
  }

  /** Everything a holder of the references can write through them. */
  ghost function Footprint(u: Refs): set<object>
    reads u.memberships
  {
    (if u.memberships == null then {} else {u.memberships as object} + Teams(u.memberships[..]))
    + (if u.claims == null then {} else {u.claims as object})
    + (if u.roles == null then {} else {u.roles as object})
  }

  ghost function Strings(a: array?<string>): seq<string>
    reads a
  {
    if a == null then [] else a[..]
  }

  ghost function RowValue(r: Row): Membership
    reads r.teamIds
  {
    Membership(r.orgId, r.orgName, r.orgSlug, r.role, Strings(r.teamIds), r.securityOfficer)
  }

  ghost function RowValues(rows: seq<Row>): seq<Membership>
    reads Teams(rows)
  {
    if rows == [] then []
    else
      assert rows[|rows| - 1].teamIds != null ==> rows[|rows| - 1].teamIds in Teams(rows);
      assert Teams(rows[..|rows| - 1]) <= Teams(rows);
      RowValues(rows[..|rows| - 1]) + [RowValue(rows[|rows| - 1])]
  }

  lemma {:induction false} RowValuesPointwise(rows: seq<Row>)
    ensures |RowValues(rows)| == |rows| && forall i :: 0 <= i < |rows| ==> RowValues(rows)[i] == RowValue(rows[i])
  {
    if rows != [] {
      RowValuesPointwise(rows[..|rows| - 1]);
    }
  }

  ghost function MembershipsOf(u: Refs): seq<Membership>
    reads u.memberships, Footprint(u)
  {
    SliceValues(u.memberships)
  }

  ghost function ClaimsOf(u: Refs): map<string, string>
    reads u.claims
  {
    if u.claims == null then map[] else u.claims.m
  }

  /** No slice is reachable in two ways. */
  ghost predicate Owned(u: Refs)
    reads u.memberships
  {
    u.memberships != null ==>
      OwnTeams(u.memberships[..]) && (u.roles != null ==> (u.roles as object) !in Teams(u.memberships[..]))
  }

  /** slices.Clone. */
  method CloneStrings(a: array?<string>) returns (b: array?<string>)
    ensures (b == null <==> a == null) && (b != null ==> fresh(b))
    ensures Strings(b) == Strings(a)
  {
    if a == null {
      return null;
    }
    b := new string[a.Length](i requires 0 <= i < a.Length reads a => a[i]);
    assert b[..] == a[..];
  }

  ghost function SliceValues(a: array?<Row>): seq<Membership>
    reads a, if a == null then {} else Teams(a[..])
  {
    if a == null then [] else RowValues(a[..])
  }

  /** One row of cloneMemberships: the same content with a team slice of its own. */
  method CloneRow(row: Row) returns (copy: Row)
    ensures copy.teamIds != null ==> fresh(copy.teamIds)
    ensures RowValue(copy) == RowValue(row)
  {
    var teamIds := CloneStrings(row.teamIds);
    copy := row.(teamIds := teamIds);
  }

  /** cloneMemberships: new rows with new team slices, equal in content. */
  method CloneMemberships(a: array?<Row>) returns (b: array?<Row>)
    ensures (b == null <==> a == null)
    ensures b != null ==> fresh(b) && fresh(Teams(b[..])) && OwnTeams(b[..])
    ensures SliceValues(b) == old(SliceValues(a))
  {
    if a == null {
      return null;
    }
    ghost var rows := a[..];
    RowValuesPointwise(rows);
    b := new Row[a.Length](_ => Row("", "", "", "", null, false));
    for i := 0 to a.Length
      invariant forall k :: 0 <= k < i ==> b[k].teamIds != null ==> fresh(b[k].teamIds)
      invariant forall k :: 0 <= k < i ==> RowValue(b[k]) == old(RowValue(rows[k]))
      invariant OwnTeams(b[..i])
    {
      b[i] := CloneRow(a[i]);
    }
    RowValuesPointwise(b[..]);
    assert b[..a.Length] == b[..];
    assert RowValues(b[..]) == old(RowValues(rows));
  }

  /** The three copies of applyResolution: nothing of the original is reachable from the result. */
  method CloneRefs(u: Refs) returns (copy: Refs)
    ensures fresh(Footprint(copy)) && Owned(copy) && (copy.claims == null <==> u.claims == null)
    ensures MembershipsOf(copy) == old(MembershipsOf(u)) && ClaimsOf(copy) == old(ClaimsOf(u))
            && Strings(copy.roles) == old(Strings(u.roles))
  {
    var memberships := CloneMemberships(u.memberships);
    var claims: Claims? := null;
    if u.claims != null {
      claims := new Claims(u.claims.m);
    }
    var roles := CloneStrings(u.roles);
    copy := Refs(memberships, claims, roles);
  }

  lemma MembershipIsSeen(u: Refs, orgId: string)
    ensures IsMemberOf(MembershipsOf(u), orgId) <==>
              u.memberships != null && exists i :: 0 <= i < u.memberships.Length && u.memberships[i].orgId == orgId
  {
    if u.memberships != null {
      var ms, rows := RowValues(u.memberships[..]), u.memberships[..];
      RowValuesPointwise(rows);
      assert forall i :: 0 <= i < |rows| ==> ms[i] == RowValue(rows[i]) && rows[i] == u.memberships[i];
      if i :| 0 <= i < u.memberships.Length && u.memberships[i].orgId == orgId {
        assert ms[i].orgId == orgId;
      }
    }
  }

  /** The admitted answer of a flight: its plain fields, and the references every caller shares. */
  datatype HeapUser = HeapUser(plain: User, refs: Refs) {
    ghost function View(): User
      reads refs.memberships, refs.claims, refs.roles, Footprint(refs)
    {
      plain.(memberships := MembershipsOf(refs), claims := ClaimsOf(refs), realmRoles := Strings(refs.roles))
    }

    twostate lemma ViewStays()
      requires unchanged(old(Footprint(refs)))
      ensures View() == old(View()) && Footprint(refs) == old(Footprint(refs))
    {
    }
  }

  class HeapPayload {
    var plain: Payload
    var refs: Refs

    ghost function View(): Payload
      reads this, refs.memberships, refs.claims, refs.roles, Footprint(refs)
    {
      plain.(profile := plain.profile.(mbs := MembershipsOf(refs), claims := ClaimsOf(refs),
          rls := Strings(refs.roles)))
    }

    /** The record itself is never among the slices and maps a User holds. */
    lemma OutsideReferences(u: Refs)
      ensures (this as object) !in Footprint(u)
    {
    }

    /** Takes over a profile and references of its own. */
    method Replace(profile: Profile, copy: Refs)
      modifies this
      ensures refs == copy && Footprint(refs) == old(Footprint(copy)) && (old(Owned(copy)) ==> Owned(refs))
      ensures View() == old(plain).(profile := profile.(mbs := old(MembershipsOf(copy)),
              claims := old(ClaimsOf(copy)), rls := old(Strings(copy.roles))))
    {
      OutsideReferences(copy);
      plain := plain.(profile := profile);
      refs := copy;
    }

    /** applyResolution: copy the answer's references, then the org a person picked survives if it is still theirs. */
    method ApplyAnswer(answer: HeapUser)
      modifies this
      ensures fresh(Footprint(refs)) && Owned(refs) && (refs.claims == null <==> answer.refs.claims == null)
      ensures View() == ApplyResolution(old(View()), old(answer.View()))
    {
      ghost var before, given := View(), answer.View();
      var copy := CloneRefs(answer.refs);
      var orgId := ActiveOrg(plain.profile.orgId, answer.plain.orgId, copy);
      Replace(ProfileOf(answer.plain).(orgId := orgId), copy);
      ResolutionByParts(before, given, orgId);
    }

    /** The handler's writes to its own session. */
    method Rewrite(w: Writes)
      requires Owned(refs)
      modifies Footprint(refs)
      ensures Footprint(refs) == old(Footprint(refs)) && refs == old(refs)
      ensures View() == Rewritten(old(View()), refs.claims != null, w)
    {
      OutsideReferences(refs);
      Scribble(refs, w);
    }

    /** A session whose record and references nobody writes to stays as it is. */
    twostate lemma ViewStays()
      requires unchanged(this) && unchanged(old(Footprint(refs)))
      ensures View() == old(View()) && Footprint(refs) == old(Footprint(refs))
    {
    }
  }

  /** What a handler writes into its own session in place. */
  datatype Writes = Writes(role: string, claims: map<string, string>)

  function RewriteFirst(s: seq<string>, role: string): seq<string> {
    if s == [] then s else s[0 := role]
  }

  function RewriteRows(ms: seq<Membership>, role: string): seq<Membership> {
    if ms == [] then ms else ms[0 := ms[0].(role := role, teamIds := RewriteFirst(ms[0].teamIds, role))]
  }

  /** The session after the handler's writes; a nil map of claims cannot be written to. */
  function Rewritten(p: Payload, hasClaims: bool, w: Writes): Payload {
    p.(profile := p.profile.(
       mbs := RewriteRows(p.profile.mbs, w.role),
       claims := if hasClaims then w.claims else p.profile.claims,
       rls := RewriteFirst(p.profile.rls, w.role)))
  }

  /** A handler that rewrites a session's memberships, team ids, claims and roles in place. */
  method Scribble(u: Refs, w: Writes)
    requires Owned(u)
    modifies Footprint(u)
    ensures Footprint(u) == old(Footprint(u)) && Owned(u)
    ensures MembershipsOf(u) == RewriteRows(old(MembershipsOf(u)), w.role)
    ensures ClaimsOf(u) == if u.claims != null then w.claims else old(ClaimsOf(u))
    ensures Strings(u.roles) == RewriteFirst(old(Strings(u.roles)), w.role)
  {
    if u.memberships != null && u.memberships.Length > 0 {
      ScribbleRow(u.memberships, w.role);
    }
    WriteClaims(u, w.claims);
    WriteRoles(u, w.role);
  }

  method WriteClaims(u: Refs, claims: map<string, string>)
    modifies u.claims
    ensures ClaimsOf(u) == if u.claims != null then claims else old(ClaimsOf(u))
  {
    if u.claims != null {
      u.claims.m := claims;
    }
  }

  method WriteRoles(u: Refs, role: string)
    requires Owned(u)
    modifies u.roles
    ensures Strings(u.roles) == RewriteFirst(old(Strings(u.roles)), role)
    ensures MembershipsOf(u) == old(MembershipsOf(u))
  {
    if u.roles != null && u.roles.Length > 0 {
      u.roles[0] := role;
    }
  }

  lemma SameTeams(before: seq<Row>, after: seq<Row>)
    requires |after| == |before| && forall i :: 0 <= i < |before| ==> after[i].teamIds == before[i].teamIds
    ensures Teams(after) == Teams(before) && (OwnTeams(before) ==> OwnTeams(after))
  {
  }

  method ScribbleRow(rows: array<Row>, role: string)
    requires rows.Length > 0 && OwnTeams(rows[..])
    modifies rows, Teams(rows[..])
    ensures Teams(rows[..]) == old(Teams(rows[..])) && OwnTeams(rows[..])
    ensures RowValues(rows[..]) == RewriteRows(old(RowValues(rows[..])), role)
  {
    ghost var before, values := rows[..], RowValues(rows[..]);
    RowValuesPointwise(before);
    var row := rows[0];
    assert row == before[0];
    if row.teamIds != null && row.teamIds.Length > 0 {
      row.teamIds[0] := role;
    }
    rows[0] := row.(role := role);
    ghost var after := rows[..];
    assert after == before[0 := row.(role := role)];
    SameTeams(before, after);
    RowValuesPointwise(after);
    assert RowValue(after[0]) == values[0].(role := role, teamIds := RewriteFirst(values[0].teamIds, role));
    forall i | 0 < i < |before| ensures RowValue(after[i]) == values[i] {
      assert before[0].teamIds != null ==> before[0].teamIds != before[i].teamIds;
    }
    assert RowValues(after) == RewriteRows(values, role);
  }

  ghost predicate Stays(previous: string, resolved: string, memberships: seq<Membership>) {
    previous != "" && previous != resolved && IsMemberOf(memberships, previous)
  }

  lemma ResolutionByParts(p: Payload, u: User, orgId: string)
    requires orgId == (if Stays(p.profile.orgId, u.orgId, u.memberships) then p.profile.orgId else u.orgId)
    ensures ApplyResolution(p, u) == p.(profile := ProfileOf(u).(orgId := orgId))
  {
  }

  /** The organization that is active after a re-resolution. */
  method ActiveOrg(previous: string, resolved: string, u: Refs) returns (orgId: string)
    ensures orgId == if Stays(previous, resolved, MembershipsOf(u)) then previous else resolved
  {
    if previous == "" || previous == resolved {
      return resolved;
    }
    var stays := HasOrg(u.memberships, previous);
    MembershipIsSeen(u, previous);
    return if stays then previous else resolved;
  }

  /** isMemberOf over the slice. */
  method HasOrg(memberships: array?<Row>, orgId: string) returns (found: bool)
    ensures found == (memberships != null && exists i :: 0 <= i < memberships.Length && memberships[i].orgId == orgId)
  {
    if memberships == null {
      return false;
    }
    for i := 0 to memberships.Length
      invariant forall k :: 0 <= k < i ==> memberships[k].orgId != orgId
    {
      if memberships[i].orgId == orgId {
        return true;
      }
    }
    return false;
  }

  /**
   One caller of the flight: it applies the retained answer, is served, and its handler then rewrites its
   session in place. Of everything that existed before, only the caller's own record changes.
   */
  method ServeCaller(caller: HeapPayload, answer: HeapUser, w: Writes)
    modifies caller
    ensures caller.View() ==
            Rewritten(ApplyResolution(old(caller.View()), old(answer.View())), answer.refs.claims != null, w)
    ensures fresh(Footprint(caller.refs))
    ensures answer.View() == old(answer.View())
  {
    caller.OutsideReferences(answer.refs);
    ghost var before, given := caller.View(), answer.View();
    label asked:
    caller.ApplyAnswer(answer);
    assert caller.View() == ApplyResolution(before, given);
    caller.Rewrite(w);
    answer.ViewStays@asked();
  }

  /** One of the callers: it leaves the others' sessions alone, those that were served before it included. */
  method ServeOne(callers: seq<HeapPayload>, n: nat, answer: HeapUser, w: Writes)
    requires n < |callers| && forall i :: 0 <= i < |callers| && i != n ==> callers[i] != callers[n]
    modifies callers[n]
    ensures callers[n].View() ==
            Rewritten(ApplyResolution(old(callers[n].View()), old(answer.View())), answer.refs.claims != null, w)
    ensures forall i :: 0 <= i < |callers| && i != n ==> callers[i].View() == old(callers[i].View())
    ensures answer.View() == old(answer.View())
  {
    label asked:
    ServeCaller(callers[n], answer, w);
    forall i | 0 <= i < |callers| && i != n ensures callers[i].View() == old(callers[i].View()) {
      callers[n].OutsideReferences(callers[i].refs);
      callers[i].ViewStays@asked();
    }
  }

  /**
   Any number of callers, each followed by its handler's writes. Every one of them, the last straggler
   included, applies the answer the leader applied, and ends with its own handler's writes on it and
   nobody else's; the retained answer is as it was.
   */
  method ServeCallers(callers: seq<HeapPayload>, answer: HeapUser, writes: seq<Writes>)
    requires |writes| == |callers|
    requires forall i, j :: 0 <= i < j < |callers| ==> callers[i] != callers[j]
    modifies callers
    ensures forall i :: 0 <= i < |callers| ==>
              callers[i].View() ==
              Rewritten(ApplyResolution(old(callers[i].View()), old(answer.View())), answer.refs.claims != null,
                  writes[i])
    ensures answer.View() == old(answer.View())
  {
    for n := 0 to |callers|
      invariant answer.View() == old(answer.View())
      invariant forall i :: n <= i < |callers| ==> callers[i].View() == old(callers[i].View())
      invariant forall i :: 0 <= i < n ==>
                  callers[i].View() ==
                  Rewritten(ApplyResolution(old(callers[i].View()), old(answer.View())), answer.refs.claims != null,
                      writes[i])
    {
      ServeOne(callers, n, answer, writes[n]);
    }
  }
}
