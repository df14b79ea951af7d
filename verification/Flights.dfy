/**
 The flight group (revalidate_flight.go): a single-flight map whose completed calls are retained
 for ten seconds. The value `Flights` is what one holder of the mutex sees; `RevalFlights` is the
 object whose critical sections change it.
 */
module Flights {
  import opened Wrappers
  import opened Clock
  import opened Decimal
  import opened Payload
  import opened Answers

  const RETENTION: Duration := 10 * SECOND

  // ----- keys -----

  const NUL: char := '\0'

  function KeyParts(parts: seq<string>): string {
    if parts == [] then "" else [NUL] + parts[0] + KeyParts(parts[1..])
  }

  /** The text flightKey hashes: the kind and the parts, each part behind a NUL. */
  function FlightKey(kind: string, parts: seq<string>): string {
    kind + KeyParts(parts)
  }

  lemma SplitAtNul(a: string, x: string, b: string, y: string)
    requires NUL !in a && NUL !in b && a + x == b + y
    requires (x == "" || x[0] == NUL) && (y == "" || y[0] == NUL)
    ensures a == b && x == y
  {
    var s := a + x;
    assert forall i :: 0 <= i < |a| ==> s[i] == a[i] && a[i] in a;
    assert forall i :: 0 <= i < |b| ==> s[i] == b[i] && b[i] in b;
    assert x != "" ==> s[|a|] == NUL;
    assert y != "" ==> s[|b|] == NUL;
    assert |a| == |b|;
    assert a == s[..|a|] && b == s[..|b|];
    assert x == s[|a|..] && y == s[|b|..];
  }

  ghost predicate NulFree(parts: seq<string>) {
    forall i :: 0 <= i < |parts| ==> NUL !in parts[i]
  }

  lemma {:induction false} KeyPartsInjective(ps: seq<string>, qs: seq<string>)
    requires NulFree(ps) && NulFree(qs) && KeyParts(ps) == KeyParts(qs)
    ensures ps == qs
  {
    if ps != [] && qs != [] {
      assert ([NUL] + ps[0] + KeyParts(ps[1..]))[1..] == ps[0] + KeyParts(ps[1..]);
      assert ([NUL] + qs[0] + KeyParts(qs[1..]))[1..] == qs[0] + KeyParts(qs[1..]);
      SplitAtNul(ps[0], KeyParts(ps[1..]), qs[0], KeyParts(qs[1..]));
      KeyPartsInjective(ps[1..], qs[1..]);
      assert ps == [ps[0]] + ps[1..] && qs == [qs[0]] + qs[1..];
    }
  }

  /** Two flights hash the same text only when they are the same kind with the same parts. */
  lemma FlightKeyInjective(kind: string, ps: seq<string>, other: string, qs: seq<string>)
    requires NUL !in kind && NUL !in other && NulFree(ps) && NulFree(qs)
    requires FlightKey(kind, ps) == FlightKey(other, qs)
    ensures kind == other && ps == qs
  {
    SplitAtNul(kind, KeyParts(ps), other, KeyParts(qs));
    KeyPartsInjective(ps, qs);
  }

  const FLIGHT_KIND_GRANT := "grant"
  const FLIGHT_KIND_RESOLVE := "resolve"

  function GrantParts(p: Payload): seq<string> {
    [p.profile.sub, p.refreshToken, FormatInt(p.lastValidated), FormatInt(p.exp)]
  }

  function ResolveParts(p: Payload): seq<string> {
    [p.profile.sub, p.refreshToken, FormatInt(p.lastValidated), FormatInt(p.resolveRetryAt)]
  }

  function GrantKey(p: Payload): string {
    FlightKey(FLIGHT_KIND_GRANT, GrantParts(p))
  }

  function ResolveKey(p: Payload): string {
    FlightKey(FLIGHT_KIND_RESOLVE, ResolveParts(p))
  }

  /** Which of the two kinds of work a flight shares. */
  datatype Kind = AtIdp | AtResolver

  function KeyOf(kind: Kind, p: Payload): string {
    if kind.AtIdp? then GrantKey(p) else ResolveKey(p)
  }

  predicate PlainCookie(p: Payload) {
    NUL !in p.profile.sub && NUL !in p.refreshToken
  }

  /** Requests share a grant only for one subject, one refresh token and one due revalidation. */
  lemma GrantKeyIdentifies(p: Payload, q: Payload)
    requires PlainCookie(p) && PlainCookie(q)
    ensures GrantKey(p) == GrantKey(q) <==>
              p.profile.sub == q.profile.sub && p.refreshToken == q.refreshToken
              && p.lastValidated == q.lastValidated && p.exp == q.exp
  {
    if GrantKey(p) == GrantKey(q) {
      PartsAreNulFree(p);
      PartsAreNulFree(q);
      FlightKeyInjective(FLIGHT_KIND_GRANT, GrantParts(p), FLIGHT_KIND_GRANT, GrantParts(q));
      assert GrantParts(p)[0] == GrantParts(q)[0] && GrantParts(p)[1] == GrantParts(q)[1];
      assert GrantParts(p)[2] == GrantParts(q)[2] && GrantParts(p)[3] == GrantParts(q)[3];
      FormatIntInjective(p.lastValidated, q.lastValidated);
      FormatIntInjective(p.exp, q.exp);
    }
  }

  /** A grant and a resolver retry never share a flight; two retries share one only for the same pending retry. */
  lemma ResolveKeyIdentifies(p: Payload, q: Payload)
    requires PlainCookie(p) && PlainCookie(q)
    ensures GrantKey(p) != ResolveKey(q)
    ensures ResolveKey(p) == ResolveKey(q) <==>
              p.profile.sub == q.profile.sub && p.refreshToken == q.refreshToken
              && p.lastValidated == q.lastValidated && p.resolveRetryAt == q.resolveRetryAt
  {
    PartsAreNulFree(p);
    PartsAreNulFree(q);
    assert |FLIGHT_KIND_GRANT| != |FLIGHT_KIND_RESOLVE|;
    if GrantKey(p) == ResolveKey(q) {
      FlightKeyInjective(FLIGHT_KIND_GRANT, GrantParts(p), FLIGHT_KIND_RESOLVE, ResolveParts(q));
    } else if ResolveKey(p) == ResolveKey(q) {
      FlightKeyInjective(FLIGHT_KIND_RESOLVE, ResolveParts(p), FLIGHT_KIND_RESOLVE, ResolveParts(q));
      assert ResolveParts(p)[0] == ResolveParts(q)[0] && ResolveParts(p)[1] == ResolveParts(q)[1];
      assert ResolveParts(p)[2] == ResolveParts(q)[2] && ResolveParts(p)[3] == ResolveParts(q)[3];
      FormatIntInjective(p.lastValidated, q.lastValidated);
      FormatIntInjective(p.resolveRetryAt, q.resolveRetryAt);
    }
  }

  lemma PartsAreNulFree(p: Payload)
    requires PlainCookie(p)
    ensures NulFree(GrantParts(p)) && NulFree(ResolveParts(p))
    ensures NUL !in FLIGHT_KIND_GRANT && NUL !in FLIGHT_KIND_RESOLVE
  {
    FormatIntAlphabet(p.lastValidated, NUL);
    FormatIntAlphabet(p.exp, NUL);
    FormatIntAlphabet(p.resolveRetryAt, NUL);
  }

  // ----- the group as a value -----

  /**
   revalCall. `done`, `res` and `finished` are the source's fields (`res` None is unwritten);
   `key`, `born`, `leader` and `panicked` record the call's history.
   */
  datatype Call = Call(
    key: string, born: Time, leader: nat, panicked: bool,
    done: bool, res: Option<Shared>, finished: Time)

  /** The map under the mutex, holding indices of `all`, the calls ever made. */
  datatype Flights = Flights(calls: map<string, nat>, all: seq<Call>)

  ghost predicate Indexed(f: Flights) {
    forall k :: k in f.calls ==> f.calls[k] < |f.all|
  }

  predicate Expired(c: Call, now: Time) {
    c.done && now - c.finished >= RETENTION
  }

  function Prune(f: Flights, now: Time): Flights
    requires Indexed(f)
  {
    f.(calls := map k | k in f.calls && !Expired(f.all[f.calls[k]], now) :: f.calls[k])
  }

  datatype Entry = Entry(flights: Flights, call: nat, leads: bool)

  /** The first critical section of `do`: prune, then join the key's call or start one. */
  function Enter(f: Flights, key: string, now: Time, who: nat): Entry
    requires Indexed(f)
  {
    var g := Prune(f, now);
    if key in g.calls then Entry(g, g.calls[key], false)
    else
      Entry(Flights(g.calls[key := |g.all|], g.all + [Call(key, now, who, false, false, None, 0)]), |g.all|, true)
  }

  /** `c.res = res`. */
  function StoreResult(f: Flights, c: nat, res: Shared): Flights
    requires c < |f.all|
  {
    f.(all := f.all[c := f.all[c].(res := Some(res))])
  }

  /** The deferred critical section of the leader. */
  function Finish(f: Flights, c: nat, completed: bool, now: Time): Flights
    requires c < |f.all|
  {
    if completed then f.(all := f.all[c := f.all[c].(done := true, finished := now)])
    else
      Flights(f.calls - {f.all[c].key},
              f.all[c := f.all[c].(res := Some(Failed(Abandoned)), panicked := true, done := true, finished := now)])
  }

  // ----- the group as the object the requests share -----

  class RevalCall {
    var done: bool
    var res: Option<Shared>
    var finished: Time
    ghost const id: nat
    ghost const key: string
    ghost const born: Time
    ghost const leader: nat
    ghost var panicked: bool

    constructor (ghost id: nat, ghost key: string, ghost born: Time, ghost leader: nat)
      ensures this.id == id && Value() == Call(key, born, leader, false, false, None, 0)
    {
      done, res, finished := false, None, 0;
      this.id, this.key, this.born, this.leader := id, key, born, leader;
      panicked := false;
    }

    ghost function Value(): Call
      reads this
    {
      Call(key, born, leader, panicked, done, res, finished)
    }
  }

  class RevalFlights {
    var calls: map<string, RevalCall>
    ghost var all: seq<RevalCall>
    ghost var view: Flights

    /** `view` is the value of the real map and the real calls. */
    ghost predicate Valid()
      reads this, all
    {
      && |view.all| == |all|
      && (forall i :: 0 <= i < |all| ==> all[i].id == i && all[i].Value() == view.all[i])
      && calls.Keys == view.calls.Keys
      && (forall k :: k in calls ==>
          view.calls[k] == calls[k].id && calls[k].id < |all| && all[calls[k].id] == calls[k])
    }

    constructor ()
      ensures Valid() && view == Flights(map[], [])
    {
      calls, all, view := map[], [], Flights(map[], []);
    }

    /** pruneLocked's loop: every expired call leaves the map, every other entry stays. */
    method DropExpired(now: Time)
      modifies `calls
      ensures calls.Keys == set k | k in old(calls) && !Expired(old(calls)[k].Value(), now)
      ensures forall k :: k in calls ==> calls[k] == old(calls)[k]
    {
      ghost var was := calls;
      var todo := calls.Keys;
      while todo != {}
        invariant todo <= calls.Keys <= was.Keys
        invariant forall k :: k in calls ==> calls[k] == was[k]
        invariant forall k :: k in was && k !in todo ==> (k in calls <==> !Expired(was[k].Value(), now))
        decreases |todo|
      {
        var k :| k in todo;
        if calls[k].done && now - calls[k].finished >= RETENTION {
          calls := calls - {k};
        }
        todo := todo - {k};
      }
    }

    /** pruneLocked. */
    method PruneLocked(now: Time)
      requires Valid()
      modifies `calls, `view
      ensures Valid() && all == old(all) && Indexed(old(view)) && view == Prune(old(view), now)
    {
      DropExpired(now);
      view := Prune(view, now);
    }

    /** The part of `do` before the leader runs or the waiter waits. */
    method Join(key: string, now: Time, ghost who: nat) returns (c: RevalCall, leads: bool)
      requires Valid()
      modifies this
      ensures Valid() && Indexed(old(view))
      ensures Entry(view, c.id, leads) == Enter(old(view), key, now, who)
      ensures c.id < |all| && all[c.id] == c && (leads ==> fresh(c))
      ensures old(all) <= all
    {
      PruneLocked(now);
      if key in calls {
        return calls[key], false;
      }
      c := new RevalCall(|all|, key, now, who);
      calls := calls[key := c];
      view := Flights(view.calls[key := |view.all|], view.all + [c.Value()]);
      all := all + [c];
      return c, true;
    }

    /** The leader's own write, outside the mutex. */
    method SetResult(c: RevalCall, res: Shared)
      requires Valid() && c.id < |all| && all[c.id] == c
      modifies c`res, this`view
      ensures Valid() && view == StoreResult(old(view), c.id, res)
    {
      c.res := Some(res);
      view := StoreResult(view, c.id, res);
    }

    /** The deferred function: release the waiters, and forget the call when fn panicked. */
    method FinishCall(c: RevalCall, key: string, completed: bool, now: Time)
      requires Valid() && c.id < |all| && all[c.id] == c && c.key == key
      modifies c, this`calls, this`view
      ensures Valid() && view == Finish(old(view), c.id, completed, now)
    {
      if !completed {
        c.res := Some(Failed(Abandoned));
        c.panicked := true;
        calls := calls - {key};
      }
      c.finished := now;
      c.done := true;
      view := Finish(view, c.id, completed, now);
    }
  }
}
