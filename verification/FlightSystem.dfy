/**
 Many concurrent requests, one flight group and a provider that revokes a refresh token on its
 first use. Every step is one critical section, one provider answer, one wake-up, one
 cancellation, one panic, one refresh by a served request's handler or a tick of the clock; runs
 interleave them in any order.
 */
module FlightSystem {
  import opened Wrappers
  import opened Clock
  import opened Payload
  import opened Config
  import opened Answers
  import opened Revalidate
  import opened Flights

  /** Where a request stands inside `do`. Leaders go Running, Asked, Stored, Returned; waiters Waiting, Returned. */
  datatype Phase =
    | Waiting
    | Running
    | Asked(answer: Shared)
    | Stored(answer: Shared)
    | Returned(answer: Shared)
    | Cancelled
    | Crashed

  /** `token` is the refresh token the request's own payload holds by now. */
  datatype Request = Request(
    kind: Kind, payload: Payload, key: string, started: Time, call: nat, phase: Phase, token: string)

  /** A refresh grant that reached the provider. */
  datatype Grant = Grant(call: nat, token: string)

  /** A refresh that the handler of a served request made with AccessToken, outside the flight group. */
  datatype Refresh = Refresh(request: nat, token: string)

  datatype System = System(now: Time, flights: Flights, idp: Idp, requests: seq<Request>, grants: seq<Grant>,
      refreshes: seq<Refresh>)

  datatype Step =
    | Tick(elapsed: nat)
    | Arrive(kind: Kind, payload: Payload)
    | Ask(r: nat, answer: Shared)
    | Store(r: nat)
    | Complete(r: nat)
    | Panic(r: nat)
    | Wake(r: nat)
    | Cancel(r: nat)
    | Access(r: nat, answer: Shared)

  function Start(now: Time, live: set<string>): System {
    System(now, Flights(map[], []), Idp(live, {}), [], [], [])
  }

  predicate HoldsAnswer(phase: Phase) {
    phase.Asked? || phase.Stored? || phase.Returned?
  }

  predicate Leading(phase: Phase) {
    phase.Running? || phase.Asked? || phase.Stored?
  }

  /**
   A live token is rotated; a consumed one is refused. Either way the provider may not answer, or with another
   error.
   */
  predicate ProviderAnswers(idp: Idp, token: string, answer: Shared) {
    if token in idp.live then
      || (answer.Failed? && !IsSessionRevoked(answer.err))
      || (answer.Granted? && MayAnswer(idp, token, answer.tokens.refresh) && Rotates(token, answer.tokens.refresh))
    else answer.Failed?
  }

  /** What a flight's work can come back with: the provider's answer to a grant, the resolver's to a retry. */
  predicate WorkAnswers(idp: Idp, q: Request, answer: Shared) {
    match q.kind
    case AtIdp => ProviderAnswers(idp, q.payload.refreshToken, answer)
    case AtResolver => answer.Resolved?
  }

  /** A resolution ended the session. */
  predicate EndsSession(answer: Shared) {
    match answer
    case Failed(_) => false
    case Granted(_, _, reresolved) => reresolved == Some(Ended)
    case Resolved(outcome) => outcome.Ended?
  }

  /** The request goes on to its handler. */
  predicate Served(answer: Shared) {
    !(answer.Failed? && IsSessionRevoked(answer.err)) && !EndsSession(answer)
  }

  ghost predicate Enabled(s: System, step: Step) {
    match step
    case Tick(_) => true
    case Arrive(_, p) => Indexed(s.flights) && PlainCookie(p)
    case Ask(r, answer) =>
      r < |s.requests| && s.requests[r].phase.Running? && WorkAnswers(s.idp, s.requests[r], answer)
    case Store(r) => r < |s.requests| && s.requests[r].phase.Asked? && s.requests[r].call < |s.flights.all|
    case Complete(r) => r < |s.requests| && s.requests[r].phase.Stored? && s.requests[r].call < |s.flights.all|
    case Panic(r) =>
      r < |s.requests| && (s.requests[r].phase.Running? || s.requests[r].phase.Asked?)
          && s.requests[r].call < |s.flights.all|
    case Wake(r) =>
      r < |s.requests| && s.requests[r].phase.Waiting? && s.requests[r].call < |s.flights.all|
      && s.flights.all[s.requests[r].call].done
    case Cancel(r) => r < |s.requests| && s.requests[r].phase.Waiting?
    case Access(r, answer) =>
      r < |s.requests| && s.requests[r].phase.Returned? && Served(s.requests[r].phase.answer)
      && ProviderAnswers(s.idp, s.requests[r].token, answer)
  }

  function WithPhase(s: System, r: nat, phase: Phase): seq<Request>
    requires r < |s.requests|
  {
    s.requests[r := s.requests[r].(phase := phase)]
  }

  /** The refresh token held after an answer. */
  function Held(token: string, answer: Shared): string {
    if answer.Granted? && answer.tokens.refresh != "" then answer.tokens.refresh else token
  }

  /** The request leaves `do` with its answer. */
  function WithAnswer(s: System, r: nat, answer: Shared): seq<Request>
    requires r < |s.requests|
  {
    s.requests[r := s.requests[r].(phase := Returned(answer), token := Held(s.requests[r].token, answer))]
  }

  /** What a waiter reads out of a finished call; None would be a result nobody has written. */
  ghost function ReadResult(c: Call): Shared {
    if c.res.Some? then c.res.value else Failed(Transport)
  }

  function AfterAnswer(idp: Idp, token: string, answer: Shared): Idp {
    if answer.Granted? then AfterRefresh(idp, token, answer.tokens.refresh) else idp
  }

  ghost function After(s: System, step: Step): System
    requires Enabled(s, step)
  {
    match step
    case Tick(elapsed) => s.(now := s.now + elapsed)
    case Arrive(kind, p) =>
      var key := KeyOf(kind, p);
      var entry := Enter(s.flights, key, s.now, |s.requests|);
      s.(flights := entry.flights,
         requests := s.requests
             + [Request(kind, p, key, s.now, entry.call, if entry.leads then Running else Waiting, p.refreshToken)])
    case Ask(r, answer) =>
      var q := s.requests[r];
      var next := s.(requests := WithPhase(s, r, Asked(answer)));
      if q.kind.AtResolver? then next
      else
        next.(idp := AfterAnswer(s.idp, q.payload.refreshToken, answer),
              grants := s.grants + [Grant(q.call, q.payload.refreshToken)])
    case Store(r) =>
      var answer := s.requests[r].phase.answer;
      s.(flights := StoreResult(s.flights, s.requests[r].call, answer), requests := WithPhase(s, r, Stored(answer)))
    case Complete(r) =>
      s.(flights := Finish(s.flights, s.requests[r].call, true, s.now),
         requests := WithAnswer(s, r, s.requests[r].phase.answer))
    case Panic(r) =>
      s.(flights := Finish(s.flights, s.requests[r].call, false, s.now), requests := WithPhase(s, r, Crashed))
    case Wake(r) =>
      s.(requests := WithAnswer(s, r, ReadResult(s.flights.all[s.requests[r].call])))
    case Cancel(r) => s.(requests := WithPhase(s, r, Cancelled))
    case Access(r, answer) =>
      var token := s.requests[r].token;
      s.(idp := AfterAnswer(s.idp, token, answer),
         requests := s.requests[r := s.requests[r].(token := Held(token, answer))],
         refreshes := s.refreshes + [Refresh(r, token)])
  }

  ghost predicate EnabledRun(s: System, run: seq<Step>)
    decreases |run|
  {
    run != [] ==> Enabled(s, run[0]) && EnabledRun(After(s, run[0]), run[1..])
  }

  ghost function AfterRun(s: System, run: seq<Step>): System
    requires EnabledRun(s, run)
    decreases |run|
  {
    if run == [] then s else AfterRun(After(s, run[0]), run[1..])
  }

  // ----- the invariant -----

  ghost predicate MapOk(f: Flights) {
    forall k :: k in f.calls ==> f.calls[k] < |f.all| && f.all[f.calls[k]].key == k
  }

  ghost predicate Mapped(f: Flights, c: nat)
    requires c < |f.all|
  {
    f.all[c].key in f.calls && f.calls[f.all[c].key] == c
  }

  ghost predicate RequestOk(s: System, r: nat)
    requires r < |s.requests|
  {
    var q := s.requests[r];
    && PlainCookie(q.payload) && q.key == KeyOf(q.kind, q.payload)
    && q.started <= s.now
    && q.call < |s.flights.all|
    && var c := s.flights.all[q.call];
       && c.key == q.key
       && (match q.phase
           case Waiting => c.leader != r
           case Cancelled => c.leader != r
           case Running => c.leader == r && !c.done && c.res.None?
           case Asked(_) => c.leader == r && !c.done && c.res.None?
           case Stored(answer) => c.leader == r && !c.done && c.res == Some(answer)
           case Returned(answer) => c.done && c.res == Some(answer)
           case Crashed => c.leader == r && c.panicked)
  }

  ghost predicate CallOk(s: System, i: nat)
    requires i < |s.flights.all|
  {
    var c := s.flights.all[i];
    && c.leader < |s.requests| && s.requests[c.leader].call == i
    && c.born <= s.now
    && (if c.done then c.finished <= s.now && c.res.Some?
        else Mapped(s.flights, i) && !c.panicked && Leading(s.requests[c.leader].phase))
    && (c.panicked ==> c.done && !Mapped(s.flights, i) && c.res == Some(Failed(Abandoned)))
    && (!Mapped(s.flights, i) ==> c.done && (c.panicked || s.now - c.finished >= RETENTION))
  }

  /** A key gets a new call only after the previous one panicked or outlived its retention. */
  ghost predicate Separated(s: System, i: nat, j: nat)
    requires i < |s.flights.all| && j < |s.flights.all|
  {
    var c, d := s.flights.all[i], s.flights.all[j];
    i < j && c.key == d.key ==> c.done && (c.panicked || d.born - c.finished >= RETENTION)
  }

  ghost predicate Inv(s: System) {
    && MapOk(s.flights)
    && (forall r: nat :: r < |s.requests| ==> RequestOk(s, r))
    && (forall i: nat :: i < |s.flights.all| ==> CallOk(s, i))
    && (forall i: nat, j: nat :: i < |s.flights.all| && j < |s.flights.all| ==> Separated(s, i, j))
  }

  /** A step that leaves the group alone and keeps each leader leading, or lets it return. */
  lemma SameFlightsKeepInv(s: System, t: System)
    requires Inv(s) && t.flights == s.flights && s.now <= t.now && |t.requests| == |s.requests|
    requires forall q: nat :: q < |t.requests| ==>
               && RequestOk(t, q)
               && t.requests[q].call == s.requests[q].call
               && (Leading(s.requests[q].phase) ==> Leading(t.requests[q].phase))
    ensures Inv(t)
  {
    forall i: nat | i < |t.flights.all| ensures CallOk(t, i) {
      assert CallOk(s, i);
    }
    forall i: nat, j: nat | i < |t.flights.all| && j < |t.flights.all| ensures Separated(t, i, j) {
      assert Separated(s, i, j);
    }
  }

  lemma WakeKeepsInv(s: System, r: nat)
    requires Inv(s) && Enabled(s, Wake(r))
    ensures Inv(After(s, Wake(r)))
  {
    var t := After(s, Wake(r));
    assert RequestOk(s, r) && CallOk(s, s.requests[r].call);
    forall q: nat | q < |t.requests| ensures RequestOk(t, q) { assert RequestOk(s, q); }
    SameFlightsKeepInv(s, t);
  }

  lemma OuterStepKeepsInv(s: System, step: Step)
    requires Inv(s) && Enabled(s, step) && (step.Tick? || step.Ask? || step.Cancel? || step.Access?)
    ensures Inv(After(s, step))
  {
    var t := After(s, step);
    forall q: nat | q < |t.requests| ensures RequestOk(t, q) { assert RequestOk(s, q); }
    SameFlightsKeepInv(s, t);
  }

  /** A step that keeps keys, birth times and finished calls keeps the calls of one key apart. */
  lemma SeparationStays(s: System, t: System)
    requires Inv(s) && |t.flights.all| == |s.flights.all|
    requires forall i: nat :: i < |s.flights.all| ==>
               var c, d := s.flights.all[i], t.flights.all[i];
               d.key == c.key && d.born == c.born && (c.done ==> d == c)
    ensures forall i: nat, j: nat :: i < |t.flights.all| && j < |t.flights.all| ==> Separated(t, i, j)
  {
    forall i: nat, j: nat | i < |t.flights.all| && j < |t.flights.all| ensures Separated(t, i, j) {
      assert Separated(s, i, j);
    }
  }

  lemma StoreKeepsInv(s: System, r: nat)
    requires Inv(s) && Enabled(s, Store(r))
    ensures Inv(After(s, Store(r)))
  {
    var t := After(s, Store(r));
    assert RequestOk(s, r);
    forall q: nat | q < |t.requests| ensures RequestOk(t, q) { assert RequestOk(s, q); }
    forall i: nat | i < |t.flights.all| ensures CallOk(t, i) { assert CallOk(s, i); }
    SeparationStays(s, t);
  }

  lemma CompleteKeepsInv(s: System, r: nat)
    requires Inv(s) && Enabled(s, Complete(r))
    ensures Inv(After(s, Complete(r)))
  {
    var t := After(s, Complete(r));
    assert RequestOk(s, r) && CallOk(s, s.requests[r].call);
    forall q: nat | q < |t.requests| ensures RequestOk(t, q) { assert RequestOk(s, q); }
    forall i: nat | i < |t.flights.all| ensures CallOk(t, i) { assert CallOk(s, i); }
    SeparationStays(s, t);
  }

  lemma PanicKeepsInv(s: System, r: nat)
    requires Inv(s) && Enabled(s, Panic(r))
    ensures Inv(After(s, Panic(r)))
  {
    var t := After(s, Panic(r));
    assert RequestOk(s, r) && CallOk(s, s.requests[r].call);
    forall q: nat | q < |t.requests| ensures RequestOk(t, q) { assert RequestOk(s, q); }
    forall i: nat | i < |t.flights.all| ensures CallOk(t, i) { assert CallOk(s, i); }
    SeparationStays(s, t);
  }

  lemma ArriveKeepsInv(s: System, kind: Kind, p: Payload)
    requires Inv(s) && Enabled(s, Arrive(kind, p))
    ensures Inv(After(s, Arrive(kind, p)))
  {
    var t := After(s, Arrive(kind, p));
    var n := |s.flights.all|;
    forall q: nat | q < |t.requests| ensures RequestOk(t, q) {
      if q < |s.requests| {
        assert RequestOk(s, q);
      } else if t.requests[q].call < n {
        assert CallOk(s, t.requests[q].call);
      }
    }
    forall i: nat | i < |t.flights.all| ensures CallOk(t, i) {
      if i < n { assert CallOk(s, i); }
    }
    forall i: nat, j: nat | i < |t.flights.all| && j < |t.flights.all| ensures Separated(t, i, j) {
      if i < n {
        assert CallOk(s, i);
        if j < n { assert Separated(s, i, j); }
      }
    }
  }

  lemma StepKeepsInv(s: System, step: Step)
    requires Inv(s) && Enabled(s, step)
    ensures Inv(After(s, step))
  {
    if step.Arrive? {
      ArriveKeepsInv(s, step.kind, step.payload);
    } else if step.Store? {
      StoreKeepsInv(s, step.r);
    } else if step.Complete? {
      CompleteKeepsInv(s, step.r);
    } else if step.Panic? {
      PanicKeepsInv(s, step.r);
    } else if step.Wake? {
      WakeKeepsInv(s, step.r);
    } else {
      OuterStepKeepsInv(s, step);
    }
  }

  lemma {:induction false} RunKeepsInv(s: System, run: seq<Step>)
    requires Inv(s) && EnabledRun(s, run)
    ensures Inv(AfterRun(s, run))
    decreases |run|
  {
    if run != [] {
      StepKeepsInv(s, run[0]);
      RunKeepsInv(After(s, run[0]), run[1..]);
    }
  }

  lemma {:induction false} RunAppend(s: System, run: seq<Step>, last: Step)
    requires EnabledRun(s, run) && Enabled(AfterRun(s, run), last)
    ensures EnabledRun(s, run + [last]) && AfterRun(s, run + [last]) == After(AfterRun(s, run), last)
    decreases |run|
  {
    if run == [] {
      assert [last][1..] == [];
    } else {
      RunAppend(After(s, run[0]), run[1..], last);
      assert (run + [last])[1..] == run[1..] + [last];
    }
  }

  // ----- safety of the flight group in every reachable state -----

  /**
   At most one leader runs per key, its call is the one the map holds, and pruning cannot drop it.
   */
  lemma OneLeaderPerKey(now: Time, live: set<string>, run: seq<Step>, r: nat, q: nat)
    requires EnabledRun(Start(now, live), run)
    requires var s := AfterRun(Start(now, live), run);
             && r < |s.requests| && Leading(s.requests[r].phase)
             && q < |s.requests| && Leading(s.requests[q].phase)
    ensures var s := AfterRun(Start(now, live), run);
            && (s.requests[r].key == s.requests[q].key ==> r == q)
            && Indexed(s.flights)
            && s.requests[r].key in Prune(s.flights, s.now).calls
            && Prune(s.flights, s.now).calls[s.requests[r].key] == s.requests[r].call
  {
    RunKeepsInv(Start(now, live), run);
    var s := AfterRun(Start(now, live), run);
    assert RequestOk(s, r) && RequestOk(s, q);
    assert CallOk(s, s.requests[r].call) && CallOk(s, s.requests[q].call);
  }

  /**
   A result is returned only after its call is finished and written; all uncancelled callers of one call
   return the same result; a panicked call is out of the map and its waiters get the fail-open outcome.
   */
  lemma ReturnsAgree(now: Time, live: set<string>, run: seq<Step>, r: nat, q: nat)
    requires EnabledRun(Start(now, live), run)
    requires var s := AfterRun(Start(now, live), run);
             && r < |s.requests| && s.requests[r].phase.Returned?
             && q < |s.requests| && s.requests[q].phase.Returned?
    ensures var s := AfterRun(Start(now, live), run);
            && var call := s.requests[r].call;
            && call < |s.flights.all| && s.flights.all[call].done
            && s.flights.all[call].res == Some(s.requests[r].phase.answer)
            && (s.requests[q].call == call ==> s.requests[q].phase.answer == s.requests[r].phase.answer)
            && (s.flights.all[call].panicked ==>
                  s.requests[r].phase.answer == Failed(Abandoned) && call !in s.flights.calls.Values)
  {
    RunKeepsInv(Start(now, live), run);
    var s := AfterRun(Start(now, live), run);
    assert RequestOk(s, r) && RequestOk(s, q) && CallOk(s, s.requests[r].call);
    assert forall k :: k in s.flights.calls ==> s.flights.all[s.flights.calls[k]].key == k;
  }

  /** A finished call is never written again. */
  lemma FinishedCallsAreStable(s: System, step: Step, i: nat)
    requires Inv(s) && Enabled(s, step) && i < |s.flights.all| && s.flights.all[i].done
    ensures i < |After(s, step).flights.all| && After(s, step).flights.all[i] == s.flights.all[i]
  {
    match step
    case Store(r) => assert RequestOk(s, r);
    case Complete(r) => assert RequestOk(s, r);
    case Panic(r) => assert RequestOk(s, r);
    case _ =>
  }

  /** No waiter is stranded: its call is finished, or the call's leader can take a step of its own. */
  lemma WaitersAreReleased(s: System, r: nat)
    requires Inv(s) && r < |s.requests| && s.requests[r].phase.Waiting?
    ensures s.requests[r].call < |s.flights.all|
    ensures var leader := s.flights.all[s.requests[r].call].leader;
            || Enabled(s, Wake(r))
            || Enabled(s, Ask(leader, Failed(Transport)))
            || Enabled(s, Ask(leader, Resolved(Soft)))
            || Enabled(s, Store(leader))
            || Enabled(s, Complete(leader))
  {
    assert RequestOk(s, r) && CallOk(s, s.requests[r].call);
    assert RequestOk(s, s.flights.all[s.requests[r].call].leader);
  }

  /**
   A panic takes its own call out of the map and no other, and hands every waiter of that call the fail-open
   outcome.
   */
  lemma PanicReleasesItsWaiters(s: System, r: nat, q: nat)
    requires Inv(s) && Enabled(s, Panic(r))
    requires q < |s.requests| && s.requests[q].phase.Waiting? && s.requests[q].call == s.requests[r].call
    ensures var t := After(s, Panic(r));
            && (forall k :: k in s.flights.calls ==>
                  (k in t.flights.calls <==> s.flights.calls[k] != s.requests[r].call)
                  && (k in t.flights.calls ==> t.flights.calls[k] == s.flights.calls[k]))
            && Enabled(t, Wake(q))
            && After(t, Wake(q)).requests[q].phase == Returned(Failed(Abandoned))
  {
    assert RequestOk(s, r) && RequestOk(s, q) && CallOk(s, s.requests[r].call);
  }

  /** A call that answers no newcomer: panicked, or finished at least ten seconds ago. */
  predicate Idle(s: System, i: nat)
    requires i < |s.flights.all|
  {
    var c := s.flights.all[i];
    c.done && (c.panicked || s.now - c.finished >= 10 * SECOND)
  }

  /**
   Exactly when an arriving request starts its own flight: every earlier call of its key has panicked
   or finished at least ten seconds ago.
   */
  lemma ArrivalLeadsExactly(s: System, kind: Kind, p: Payload)
    requires Inv(s) && Enabled(s, Arrive(kind, p))
    ensures After(s, Arrive(kind, p)).requests[|s.requests|].phase.Running? <==>
              forall i: nat :: i < |s.flights.all| && s.flights.all[i].key == KeyOf(kind, p) ==> Idle(s, i)
  {
    var key := KeyOf(kind, p);
    var kept := Prune(s.flights, s.now).calls;
    if key in kept {
      var i := s.flights.calls[key];
      assert s.flights.all[i].key == key && Mapped(s.flights, i);
      assert CallOk(s, i) && !Idle(s, i);
    } else {
      forall i: nat | i < |s.flights.all| && s.flights.all[i].key == key ensures Idle(s, i) {
        assert CallOk(s, i);
      }
    }
  }

  /**
   How far the retention reaches. A request that still carries a consumed token leads its own grant exactly
   when every earlier call of its key is idle. It can then be refused, and is signed out exactly when it
   is; on any other answer it is served on a backed-off session.
   */
  lemma LateStragglerAsksAgain(cfg: Config, s: System, p: Payload)
    requires Inv(s) && Enabled(s, Arrive(AtIdp, p)) && cfg.revalidateInterval > 0 && p.refreshToken !in s.idp.live
    ensures var t, r := After(s, Arrive(AtIdp, p)), |s.requests|;
            if forall i: nat :: i < |s.flights.all| && s.flights.all[i].key == GrantKey(p) ==> Idle(s, i) then
              && t.requests[r].phase.Running?
              && Enabled(t, Ask(r, Failed(Retrieve(INVALID_GRANT))))
              && (forall answer :: Enabled(t, Ask(r, answer)) ==>
                    AfterGrant(cfg, p, s.now, answer) ==
                    if answer == Failed(Retrieve(INVALID_GRANT)) then SignedOut else Stamped(BackedOff(cfg, p, s.now)))
            else t.requests[r].phase.Waiting?
  {
    ArrivalLeadsExactly(s, AtIdp, p);
  }

  // ----- how long a retained answer lives -----

  /** Nobody joins a call ten seconds after it finished. */
  ghost predicate InTime(s: System) {
    forall r: nat :: r < |s.requests| ==>
      var q := s.requests[r];
      q.call < |s.flights.all|
      && var c := s.flights.all[q.call];
         c.done && !c.panicked ==> q.started < c.finished + 10 * SECOND
  }

  lemma StepKeepsInTime(s: System, step: Step)
    requires Inv(s) && InTime(s) && Enabled(s, step)
    ensures InTime(After(s, step))
  {
    match step
    case Arrive(kind, p) =>
      forall r: nat | r < |s.requests| ensures s.requests[r].call < |s.flights.all| { assert RequestOk(s, r); }
    case Complete(r) =>
      forall q: nat | q < |s.requests| ensures s.requests[q].started <= s.now { assert RequestOk(s, q); }
    case _ =>
  }

  lemma {:induction false} RunKeepsInTime(s: System, run: seq<Step>)
    requires Inv(s) && InTime(s) && EnabledRun(s, run)
    ensures InTime(AfterRun(s, run))
    decreases |run|
  {
    if run != [] {
      StepKeepsInv(s, run[0]);
      StepKeepsInTime(s, run[0]);
      RunKeepsInTime(After(s, run[0]), run[1..]);
    }
  }

  /**
   The life bound under concurrency. Every request stamps a shared answer with its own clock, and a late one gains
   less than ten seconds by it: LastValidated, and Exp less a TTL, stay below the flight's end plus the retention.
   */
  lemma RetentionAddsTenSeconds(cfg: Config, now: Time, live: set<string>, run: seq<Step>, r: nat)
    requires cfg.revalidateInterval > 0 && EnabledRun(Start(now, live), run)
    requires var s := AfterRun(Start(now, live), run);
             r < |s.requests| && s.requests[r].phase.Returned? && s.requests[r].phase.answer.Granted?
    ensures var s := AfterRun(Start(now, live), run);
            var q := s.requests[r];
            && q.call < |s.flights.all|
            && var limit := s.flights.all[q.call].finished + 10 * SECOND;
               match AfterGrant(cfg, q.payload, q.started, q.phase.answer)
               case Stamped(p) =>
                 && p.lastValidated * SECOND < limit
                 && (if q.phase.answer.reresolved == Some(Soft) then p.exp == q.payload.exp
                     else p.exp * SECOND < limit + cfg.sessionTTL)
               case Kept(_) => false
               case SignedOut => q.phase.answer.reresolved == Some(Ended)
  {
    RunKeepsInv(Start(now, live), run);
    RunKeepsInTime(Start(now, live), run);
    var s := AfterRun(Start(now, live), run);
    assert RequestOk(s, r) && CallOk(s, s.requests[r].call);
  }

  // ----- no self-inflicted sign-out -----

  ghost predicate HasGrant(s: System, call: nat) {
    exists g :: 0 <= g < |s.grants| && s.grants[g].call == call
  }

  ghost predicate ByFlight(s: System, token: string) {
    exists g :: 0 <= g < |s.grants| && s.grants[g].token == token
  }

  ghost predicate ByHandler(s: System, token: string) {
    exists f :: 0 <= f < |s.refreshes| && s.refreshes[f].token == token
  }

  /** The provider has been shown the token, by a flight or by a handler. */
  ghost predicate Presented(s: System, token: string) {
    ByFlight(s, token) || ByHandler(s, token)
  }

  ghost predicate GrantOk(s: System, g: nat)
    requires g < |s.grants|
  {
    var i := s.grants[g].call;
    && i < |s.flights.all| && s.flights.all[i].leader < |s.requests|
    && var q := s.requests[s.flights.all[i].leader];
       s.grants[g].token == q.payload.refreshToken && q.kind.AtIdp? && !q.phase.Running?
  }

  /**
   The grants sent: one per call at most, by the call's leader, and one for every call at the provider that
   completed.
   */
  ghost predicate GrantsOk(s: System) {
    && (forall g: nat :: g < |s.grants| ==> GrantOk(s, g))
    && (forall g, h :: 0 <= g < h < |s.grants| ==> s.grants[g].call != s.grants[h].call)
    && (forall r: nat :: r < |s.requests| && (s.requests[r].phase.Asked? || s.requests[r].phase.Stored?) ==>
          s.requests[r].kind.AtIdp? ==> HasGrant(s, s.requests[r].call))
    && (forall i: nat :: i < |s.flights.all| && s.flights.all[i].done && !s.flights.all[i].panicked ==>
          s.flights.all[i].leader < |s.requests|
          && (s.requests[s.flights.all[i].leader].kind.AtIdp? ==> HasGrant(s, i)))
  }

  lemma AskKeepsGrants(s: System, r: nat, answer: Shared)
    requires Inv(s) && GrantsOk(s) && Enabled(s, Ask(r, answer))
    ensures GrantsOk(After(s, Ask(r, answer)))
  {
    var t := After(s, Ask(r, answer));
    assert RequestOk(s, r);
    assert s.requests[r].kind.AtIdp? ==> t.grants[|s.grants|].call == s.requests[r].call;
    forall g: nat | g < |t.grants|
      ensures GrantOk(t, g) && (g < |s.grants| ==> s.grants[g].call != s.requests[r].call)
    {
      if g < |s.grants| {
        assert GrantOk(s, g) && t.grants[g] == s.grants[g];
      }
    }
    forall i | HasGrant(s, i) ensures HasGrant(t, i) {
      var g :| 0 <= g < |s.grants| && s.grants[g].call == i;
      assert t.grants[g].call == i;
    }
  }

  lemma ArriveKeepsGrants(s: System, kind: Kind, p: Payload)
    requires Inv(s) && GrantsOk(s) && Enabled(s, Arrive(kind, p))
    ensures GrantsOk(After(s, Arrive(kind, p)))
  {
    var t := After(s, Arrive(kind, p));
    forall g: nat | g < |t.grants| ensures GrantOk(t, g) {
      assert GrantOk(s, g);
    }
    forall i | HasGrant(s, i) ensures HasGrant(t, i) {
    }
    forall i: nat | i < |s.flights.all| ensures t.flights.all[i] == s.flights.all[i] {
      assert CallOk(s, i);
    }
  }

  lemma CompleteKeepsGrants(s: System, r: nat)
    requires Inv(s) && GrantsOk(s) && Enabled(s, Complete(r))
    ensures GrantsOk(After(s, Complete(r)))
  {
    var t := After(s, Complete(r));
    assert RequestOk(s, r) && CallOk(s, s.requests[r].call);
    forall g: nat | g < |t.grants| ensures GrantOk(t, g) {
      assert GrantOk(s, g);
    }
    forall i | HasGrant(s, i) ensures HasGrant(t, i) {
    }
  }

  lemma InnerStepKeepsGrants(s: System, step: Step)
    requires Inv(s) && GrantsOk(s) && Enabled(s, step) && !step.Ask? && !step.Arrive? && !step.Complete?
    ensures GrantsOk(After(s, step))
  {
    var t := After(s, step);
    forall g: nat | g < |t.grants| ensures GrantOk(t, g) {
      assert GrantOk(s, g);
    }
    forall i | HasGrant(s, i) ensures HasGrant(t, i) {
    }
  }

  lemma StepKeepsGrants(s: System, step: Step)
    requires Inv(s) && GrantsOk(s) && Enabled(s, step)
    ensures GrantsOk(After(s, step))
  {
    match step
    case Ask(r, answer) => AskKeepsGrants(s, r, answer);
    case Arrive(kind, p) => ArriveKeepsGrants(s, kind, p);
    case Complete(r) => CompleteKeepsGrants(s, r);
    case _ => InnerStepKeepsGrants(s, step);
  }

  /** A token a grant brought is accepted by the provider until somebody presents it. */
  ghost predicate TokenOk(s: System, answer: Shared) {
    answer.Granted? ==> answer.tokens.refresh in s.idp.live || Presented(s, answer.tokens.refresh)
  }

  /** Every answer any request or call holds is of that kind. */
  ghost predicate TokensOk(s: System) {
    && (forall r: nat ::
          r < |s.requests| && HoldsAnswer(s.requests[r].phase) ==>
          TokenOk(s, s.requests[r].phase.answer))
    && (forall i: nat :: i < |s.flights.all| && s.flights.all[i].res.Some? ==> TokenOk(s, s.flights.all[i].res.value))
  }

  lemma StaysPresented(s: System, step: Step, token: string)
    requires Enabled(s, step)
    ensures ByFlight(s, token) ==> ByFlight(After(s, step), token)
    ensures ByHandler(s, token) ==> ByHandler(After(s, step), token)
  {
    var t := After(s, step);
    if ByFlight(s, token) {
      var g :| 0 <= g < |s.grants| && s.grants[g].token == token;
      assert t.grants[g].token == token;
    }
    if ByHandler(s, token) {
      var f :| 0 <= f < |s.refreshes| && s.refreshes[f].token == token;
      assert t.refreshes[f].token == token;
    }
  }

  /** A token leaves the live ones only by being presented. */
  lemma TokenStaysOk(s: System, step: Step, answer: Shared)
    requires Enabled(s, step) && TokenOk(s, answer)
    ensures TokenOk(After(s, step), answer)
  {
    if answer.Granted? {
      var t, token := After(s, step), answer.tokens.refresh;
      StaysPresented(s, step, token);
      if step.Ask? && s.requests[step.r].kind.AtIdp? && s.requests[step.r].payload.refreshToken == token {
        assert t.grants[|s.grants|].token == token;
      }
      if step.Access? && s.requests[step.r].token == token {
        assert t.refreshes[|s.refreshes|].token == token;
      }
    }
  }

  lemma StepKeepsTokens(s: System, step: Step)
    requires Inv(s) && TokensOk(s) && Enabled(s, step)
    ensures TokensOk(After(s, step))
  {
    forall answer | TokenOk(s, answer) ensures TokenOk(After(s, step), answer) {
      TokenStaysOk(s, step, answer);
    }
  }

  lemma {:induction false} RunKeepsTokens(s: System, run: seq<Step>)
    requires Inv(s) && TokensOk(s) && EnabledRun(s, run)
    ensures TokensOk(AfterRun(s, run))
    decreases |run|
  {
    if run != [] {
      StepKeepsInv(s, run[0]);
      StepKeepsTokens(s, run[0]);
      RunKeepsTokens(After(s, run[0]), run[1..]);
    }
  }

  /** An answer that does not end the session and, when granted, brings a different refresh token. */
  predicate Good(token: string, answer: Shared) {
    match answer
    case Failed(err) => !IsSessionRevoked(err)
    case Granted(tokens, _, _) => Rotates(token, tokens.refresh)
    case Resolved(_) => false
  }

  /**
   What a good answer makes of a session: ended by its resolution, or stamped with the token it is to present
   next.
   */
  ghost predicate Continues(cfg: Config, p: Payload, now: Time, answer: Shared)
    requires cfg.revalidateInterval > 0 && !answer.Resolved?
  {
    match AfterGrant(cfg, p, now, answer)
    case Stamped(q) => q.refreshToken == if answer.Granted? then answer.tokens.refresh else p.refreshToken
    case SignedOut => answer.Granted? && answer.reresolved == Some(Ended)
    case Kept(_) => false
  }

  lemma GoodAnswersContinue(cfg: Config, p: Payload, now: Time, answer: Shared)
    requires cfg.revalidateInterval > 0 && Good(p.refreshToken, answer)
    ensures Continues(cfg, p, now, answer)
  {
  }

  /**
   What the retention promises for one cookie: its requests arrive while the flight runs or within ten
   seconds of its normal end, its refresh token is presented by this cookie alone, and its flight does
   not panic. Requests of any other cookie are unrestricted.
   */
  ghost predicate Calm(s: System, step: Step, cookie: Payload)
    requires Enabled(s, step)
  {
    var key := GrantKey(cookie);
    match step
    case Arrive(kind, p) =>
      && (p.refreshToken == cookie.refreshToken ==> KeyOf(kind, p) == key)
      && (KeyOf(kind, p) == key ==>
            forall i :: 0 <= i < |s.flights.all| && s.flights.all[i].key == key ==> !Expired(s.flights.all[i], s.now))
    case Panic(r) => s.requests[r].key != key
    case _ => true
  }

  ghost predicate CalmRun(s: System, run: seq<Step>, cookie: Payload)
    requires EnabledRun(s, run)
    decreases |run|
  {
    run != [] ==> Calm(s, run[0], cookie) && CalmRun(After(s, run[0]), run[1..], cookie)
  }

  ghost predicate OneFlight(s: System, cookie: Payload) {
    var key, token := GrantKey(cookie), cookie.refreshToken;
    && (forall i, j :: (0 <= i < |s.flights.all| && 0 <= j < |s.flights.all|
                        && s.flights.all[i].key == key && s.flights.all[j].key == key) ==> i == j)
    && (forall i :: 0 <= i < |s.flights.all| && s.flights.all[i].key == key ==>
          !s.flights.all[i].panicked && (s.flights.all[i].res.Some? ==> Good(token, s.flights.all[i].res.value)))
    && (forall r :: 0 <= r < |s.requests| && s.requests[r].payload.refreshToken == token ==> s.requests[r].key == key)
    && (forall r :: 0 <= r < |s.requests| && s.requests[r].key == key && s.requests[r].phase.Asked? ==>
          Good(token, s.requests[r].phase.answer))
    && (!Presented(s, token) ==> token in s.idp.live)
  }

  /** The requests of the cookie's flight are grants and carry its token. */
  lemma FlightCarriesTheToken(s: System, r: nat, cookie: Payload)
    requires Inv(s) && PlainCookie(cookie) && r < |s.requests| && s.requests[r].key == GrantKey(cookie)
    ensures s.requests[r].kind.AtIdp? && s.requests[r].payload.refreshToken == cookie.refreshToken
  {
    assert RequestOk(s, r);
    GrantKeyIdentifies(s.requests[r].payload, cookie);
    ResolveKeyIdentifies(cookie, s.requests[r].payload);
  }

  lemma ArriveKeepsOneFlight(s: System, kind: Kind, p: Payload, cookie: Payload)
    requires Inv(s) && OneFlight(s, cookie) && Enabled(s, Arrive(kind, p)) && Calm(s, Arrive(kind, p), cookie)
    ensures OneFlight(After(s, Arrive(kind, p)), cookie)
  {
    ArrivalLeadsExactly(s, kind, p);
    assert After(s, Arrive(kind, p)).grants == s.grants && After(s, Arrive(kind, p)).refreshes == s.refreshes;
    if KeyOf(kind, p) == GrantKey(cookie) {
      forall i: nat | i < |s.flights.all| && s.flights.all[i].key == GrantKey(cookie) ensures !Idle(s, i) {
      }
    }
  }

  // What the handlers of served requests do with one token.

  /** An answer of the provider, or of an abandoned call, that brings some other token if any. */
  predicate BringsAnother(answer: Shared, token: string) {
    answer.Granted? ==> answer.tokens.refresh !in {"", token}
  }

  /** The provider knows the token from before, so no answer brings it and only requests that carried it hold it. */
  ghost predicate Original(s: System, token: string) {
    && (token in s.idp.live || token in s.idp.spent)
    && (forall r: nat :: r < |s.requests| ==>
          var q := s.requests[r];
          && (HoldsAnswer(q.phase) ==> BringsAnother(q.phase.answer, token))
          && (!q.phase.Returned? ==> q.token == q.payload.refreshToken)
          && (q.token == token ==> q.payload.refreshToken == token && !(q.phase.Returned? && q.phase.answer.Granted?)))
    && (forall i: nat :: i < |s.flights.all| && s.flights.all[i].res.Some? ==>
        BringsAnother(s.flights.all[i].res.value, token))
  }

  lemma OuterStepKeepsOriginal(s: System, step: Step, token: string)
    requires Original(s, token) && Enabled(s, step)
    requires step.Tick? || step.Arrive? || step.Ask? || step.Cancel? || step.Access?
    ensures Original(After(s, step), token)
  {
  }

  lemma StepKeepsOriginal(s: System, step: Step, token: string)
    requires Inv(s) && Original(s, token) && Enabled(s, step)
    ensures Original(After(s, step), token)
  {
    match step
    case Wake(r) => assert RequestOk(s, r) && CallOk(s, s.requests[r].call);
    case Store(r) => assert RequestOk(s, r);
    case Complete(r) => assert RequestOk(s, r);
    case Panic(r) => assert RequestOk(s, r);
    case _ => OuterStepKeepsOriginal(s, step, token);
  }

  ghost predicate RefreshedBy(s: System, r: nat) {
    exists f :: 0 <= f < |s.refreshes| && s.refreshes[f].request == r
  }

  /** A request that carried the token, whose flight failed open and which may so present the token again. */
  ghost predicate KeptToken(s: System, r: nat, token: string)
    requires r < |s.requests|
  {
    s.requests[r].payload.refreshToken == token && s.requests[r].phase.Returned? && !s.requests[r].phase.answer.Granted?
  }

  /** Handlers present the token only after a failed flight, and as soon as one of those requests refreshes at all. */
  ghost predicate HandlersOk(s: System, token: string) {
    && (forall f :: 0 <= f < |s.refreshes| ==>
          var r := s.refreshes[f].request;
          r < |s.requests| && s.requests[r].phase.Returned?
              && (s.refreshes[f].token == token ==> KeptToken(s, r, token)))
    && (forall r: nat :: r < |s.requests| && KeptToken(s, r, token) ==>
          (s.requests[r].token == token && !RefreshedBy(s, r)) || ByHandler(s, token))
  }

  lemma AccessKeepsHandlers(s: System, r: nat, answer: Shared, token: string)
    requires Original(s, token) && HandlersOk(s, token) && Enabled(s, Access(r, answer))
    ensures HandlersOk(After(s, Access(r, answer)), token)
  {
    var t := After(s, Access(r, answer));
    var n := |s.refreshes|;
    StaysPresented(s, Access(r, answer), token);
    if s.requests[r].token == token {
      assert t.refreshes[n].token == token;
    }
    forall f | 0 <= f < |t.refreshes|
      ensures t.refreshes[f].request < |t.requests| && t.requests[t.refreshes[f].request].phase.Returned?
      ensures t.refreshes[f].token == token ==> KeptToken(t, t.refreshes[f].request, token)
    {
      assert f < n ==> t.refreshes[f] == s.refreshes[f];
    }
    forall q: nat | q < |t.requests| && KeptToken(t, q, token) && !ByHandler(t, token)
      ensures t.requests[q].token == token && !RefreshedBy(t, q)
    {
      assert KeptToken(s, q, token);
      assert q != r;
      forall f | 0 <= f < |t.refreshes| ensures t.refreshes[f].request != q {
        assert f < n ==> t.refreshes[f] == s.refreshes[f];
      }
    }
  }

  lemma StepKeepsHandlers(s: System, step: Step, token: string)
    requires Inv(s) && Original(s, token) && HandlersOk(s, token) && Enabled(s, step)
    ensures HandlersOk(After(s, step), token)
  {
    if step.Access? {
      AccessKeepsHandlers(s, step.r, step.answer, token);
    } else {
      var t := After(s, step);
      StaysPresented(s, step, token);
      assert t.refreshes == s.refreshes;
      forall q: nat | q < |t.requests| && KeptToken(t, q, token) && !ByHandler(t, token)
        ensures t.requests[q].token == token && !RefreshedBy(t, q)
      {
        if q < |s.requests| && s.requests[q].phase.Returned? {
          assert KeptToken(s, q, token);
        }
      }
    }
  }

  /** A leader of the cookie's flight that has not asked yet: nobody has presented the token before. */
  lemma TokenNotYetPresented(s: System, r: nat, cookie: Payload)
    requires Inv(s) && GrantsOk(s) && OneFlight(s, cookie) && PlainCookie(cookie) && HandlersOk(s, cookie.refreshToken)
    requires r < |s.requests| && s.requests[r].phase.Running?
             && s.requests[r].payload.refreshToken == cookie.refreshToken
    ensures !Presented(s, cookie.refreshToken)
  {
    assert RequestOk(s, r);
    forall g | 0 <= g < |s.grants| ensures s.grants[g].token != cookie.refreshToken {
      assert GrantOk(s, g) && CallOk(s, s.grants[g].call);
      assert RequestOk(s, s.flights.all[s.grants[g].call].leader);
    }
    forall f | 0 <= f < |s.refreshes| ensures s.refreshes[f].token != cookie.refreshToken {
      assert RequestOk(s, s.refreshes[f].request);
    }
  }

  lemma AskKeepsOneFlight(s: System, r: nat, answer: Shared, cookie: Payload)
    requires Inv(s) && GrantsOk(s) && OneFlight(s, cookie) && PlainCookie(cookie) && HandlersOk(s, cookie.refreshToken)
    requires Enabled(s, Ask(r, answer))
    ensures OneFlight(After(s, Ask(r, answer)), cookie)
  {
    var t := After(s, Ask(r, answer));
    var presented := s.requests[r].payload.refreshToken;
    assert RequestOk(s, r);
    StaysPresented(s, Ask(r, answer), cookie.refreshToken);
    if s.requests[r].key == GrantKey(cookie) {
      FlightCarriesTheToken(s, r, cookie);
    }
    if presented == cookie.refreshToken {
      TokenNotYetPresented(s, r, cookie);
      assert t.grants[|s.grants|].token == presented;
    }
  }

  lemma AccessKeepsOneFlight(s: System, r: nat, answer: Shared, cookie: Payload)
    requires OneFlight(s, cookie) && Enabled(s, Access(r, answer))
    ensures OneFlight(After(s, Access(r, answer)), cookie)
  {
    var t := After(s, Access(r, answer));
    StaysPresented(s, Access(r, answer), cookie.refreshToken);
    assert t.refreshes[|s.refreshes|].token == s.requests[r].token;
  }

  /** The steps inside the flight: none of them starts a call or reaches the provider. */
  lemma InnerStepKeepsOneFlight(s: System, step: Step, cookie: Payload)
    requires Inv(s) && OneFlight(s, cookie) && Enabled(s, step)
    requires step.Store? || step.Complete? || (step.Panic? && Calm(s, step, cookie))
    ensures OneFlight(After(s, step), cookie)
  {
    assert RequestOk(s, step.r);
    assert After(s, step).grants == s.grants && After(s, step).refreshes == s.refreshes;
  }

  lemma StepKeepsOneFlight(s: System, step: Step, cookie: Payload)
    requires Inv(s) && GrantsOk(s) && OneFlight(s, cookie) && PlainCookie(cookie) && HandlersOk(s, cookie.refreshToken)
    requires Enabled(s, step) && Calm(s, step, cookie)
    ensures OneFlight(After(s, step), cookie)
  {
    match step
    case Arrive(kind, p) => ArriveKeepsOneFlight(s, kind, p, cookie);
    case Ask(r, answer) => AskKeepsOneFlight(s, r, answer, cookie);
    case Store(r) => InnerStepKeepsOneFlight(s, step, cookie);
    case Complete(r) => InnerStepKeepsOneFlight(s, step, cookie);
    case Panic(r) => InnerStepKeepsOneFlight(s, step, cookie);
    case Access(r, answer) => AccessKeepsOneFlight(s, r, answer, cookie);
    case _ => assert After(s, step).grants == s.grants && After(s, step).refreshes == s.refreshes;
  }

  /** Everything a calm run keeps for the cookie. */
  ghost predicate Guarded(s: System, cookie: Payload) {
    Inv(s) && GrantsOk(s) && OneFlight(s, cookie) && Original(s, cookie.refreshToken)
        && HandlersOk(s, cookie.refreshToken)
  }

  lemma {:induction false} RunKeepsOneFlight(s: System, run: seq<Step>, cookie: Payload)
    requires Guarded(s, cookie) && PlainCookie(cookie)
    requires EnabledRun(s, run) && CalmRun(s, run, cookie)
    ensures Guarded(AfterRun(s, run), cookie)
    decreases |run|
  {
    if run != [] {
      StepKeepsInv(s, run[0]);
      StepKeepsGrants(s, run[0]);
      StepKeepsOneFlight(s, run[0], cookie);
      StepKeepsOriginal(s, run[0], cookie.refreshToken);
      StepKeepsHandlers(s, run[0], cookie.refreshToken);
      RunKeepsOneFlight(After(s, run[0]), run[1..], cookie);
    }
  }

  /** A request that came back: it carried the cookie's key and its answer is the shared one. */
  ghost predicate CameBack(s: System, r: nat, cookie: Payload) {
    r < |s.requests| && s.requests[r].key == GrantKey(cookie) && s.requests[r].phase.Returned?
  }

  /** Two grants never present the cookie's token. */
  lemma TokenPresentedOnce(s: System, cookie: Payload, g: nat, h: nat)
    requires Inv(s) && GrantsOk(s) && OneFlight(s, cookie) && g < h < |s.grants|
    ensures !(s.grants[g].token == s.grants[h].token == cookie.refreshToken)
  {
    assert GrantOk(s, g) && GrantOk(s, h);
    assert CallOk(s, s.grants[g].call) && CallOk(s, s.grants[h].call);
    assert RequestOk(s, s.flights.all[s.grants[g].call].leader);
    assert RequestOk(s, s.flights.all[s.grants[h].call].leader);
  }

  /** A request that came back did so with a good answer to a grant that presented the cookie's token. */
  lemma CameBackWithAGrant(s: System, cookie: Payload, r: nat)
    requires Inv(s) && GrantsOk(s) && OneFlight(s, cookie) && PlainCookie(cookie) && CameBack(s, r, cookie)
    ensures ByFlight(s, cookie.refreshToken)
    ensures Good(cookie.refreshToken, s.requests[r].phase.answer)
    ensures s.requests[r].payload.refreshToken == cookie.refreshToken
    ensures s.requests[r].call < |s.flights.all| && s.flights.all[s.requests[r].call].key == GrantKey(cookie)
    ensures s.flights.all[s.requests[r].call].res == Some(s.requests[r].phase.answer)
  {
    assert RequestOk(s, r);
    var i := s.requests[r].call;
    assert CallOk(s, i);
    FlightCarriesTheToken(s, r, cookie);
    assert RequestOk(s, s.flights.all[i].leader);
    FlightCarriesTheToken(s, s.flights.all[i].leader, cookie);
    assert HasGrant(s, i);
    var g :| 0 <= g < |s.grants| && s.grants[g].call == i;
    assert GrantOk(s, g);
    assert s.grants[g].token == cookie.refreshToken;
  }

  /**
   Against a provider that revokes a refresh token on its first use, and in every calm interleaving of
   any number of requests: flights present the cookie's token at most once, and exactly once as soon as a
   request comes back; nobody reads invalid_grant; and every request that comes back holds the same
   answer, so that either all keep the session on an outage or all end with the one rotated token. That
   token is accepted by the provider until it is itself presented, so it does not matter whose response the
   browser stores last.
   */
  lemma NoSelfInflictedSignOut(cfg: Config, now: Time, live: set<string>, run: seq<Step>, cookie: Payload, r: nat,
                               q: nat)
    requires cfg.revalidateInterval > 0
    requires PlainCookie(cookie) && cookie.refreshToken in live
    requires EnabledRun(Start(now, live), run) && CalmRun(Start(now, live), run, cookie)
    requires CameBack(AfterRun(Start(now, live), run), r, cookie)
    requires CameBack(AfterRun(Start(now, live), run), q, cookie)
    ensures var s := AfterRun(Start(now, live), run);
            var answer := s.requests[r].phase.answer;
            && ByFlight(s, cookie.refreshToken)
            && (forall g, h :: 0 <= g < h < |s.grants| ==>
                  !(s.grants[g].token == s.grants[h].token == cookie.refreshToken))
            && !answer.Resolved? && !(answer.Failed? && IsSessionRevoked(answer.err))
            && s.requests[q].phase.answer == answer
            && TokenOk(s, answer)
            && (answer.Granted? ==> Rotates(cookie.refreshToken, answer.tokens.refresh))
            && s.requests[r].payload.refreshToken == cookie.refreshToken
            && Continues(cfg, s.requests[r].payload, s.requests[r].started, answer)
  {
    RunKeepsOneFlight(Start(now, live), run, cookie);
    RunKeepsTokens(Start(now, live), run);
    var s := AfterRun(Start(now, live), run);
    CameBackWithAGrant(s, cookie, r);
    CameBackWithAGrant(s, cookie, q);
    GoodAnswersContinue(cfg, s.requests[r].payload, s.requests[r].started, s.requests[r].phase.answer);
    forall g: nat, h: nat | g < h < |s.grants|
      ensures !(s.grants[g].token == s.grants[h].token == cookie.refreshToken)
    {
      TokenPresentedOnce(s, cookie, g, h);
    }
  }

  lemma KeptTokensAreTheFlights(s: System, cookie: Payload, r: nat, q: nat)
    requires Inv(s) && OneFlight(s, cookie) && PlainCookie(cookie) && CameBack(s, r, cookie) && q < |s.requests|
    ensures KeptToken(s, q, cookie.refreshToken) <==>
              s.requests[q].key == GrantKey(cookie) && s.requests[q].phase.Returned?
                  && s.requests[r].phase.answer.Failed?
  {
    assert RequestOk(s, r) && RequestOk(s, q);
    if s.requests[q].key == GrantKey(cookie) {
      FlightCarriesTheToken(s, q, cookie);
    }
  }

  lemma HandlersPresentExactly(s: System, cookie: Payload, r: nat)
    requires Guarded(s, cookie) && PlainCookie(cookie) && CameBack(s, r, cookie)
    ensures ByHandler(s, cookie.refreshToken) <==>
              && s.requests[r].phase.answer.Failed?
              && exists q: nat :: q < |s.requests| && s.requests[q].key == GrantKey(cookie) && RefreshedBy(s, q)
  {
    var token := cookie.refreshToken;
    if ByHandler(s, token) {
      var f :| 0 <= f < |s.refreshes| && s.refreshes[f].token == token;
      var q := s.refreshes[f].request;
      assert KeptToken(s, q, token) && RefreshedBy(s, q);
      KeptTokensAreTheFlights(s, cookie, r, q);
    }
    forall q: nat | q < |s.requests| && s.requests[q].key == GrantKey(cookie) && RefreshedBy(s, q)
        && s.requests[r].phase.answer.Failed?
      ensures ByHandler(s, token)
    {
      KeptTokensAreTheFlights(s, cookie, r, q);
    }
  }

  /**
   Handlers refresh outside the flight group, so the token can be presented again after the flight. Exactly
   when: the flight failed open, and the handler of a request it served refreshed with AccessToken.
   */
  lemma PresentedOnceExactly(now: Time, live: set<string>, run: seq<Step>, cookie: Payload, r: nat)
    requires PlainCookie(cookie) && cookie.refreshToken in live
    requires EnabledRun(Start(now, live), run) && CalmRun(Start(now, live), run, cookie)
    requires CameBack(AfterRun(Start(now, live), run), r, cookie)
    ensures var s := AfterRun(Start(now, live), run);
            ByHandler(s, cookie.refreshToken) <==>
              && s.requests[r].phase.answer.Failed?
              && exists q: nat :: q < |s.requests| && s.requests[q].key == GrantKey(cookie) && RefreshedBy(s, q)
  {
    RunKeepsOneFlight(Start(now, live), run, cookie);
    HandlersPresentExactly(AfterRun(Start(now, live), run), cookie, r);
  }

  /**
   What such a refresh costs. After a failed flight, one handler's rotation consumes the token that the
   session of every other request of that flight still carries.
   */
  lemma RefreshAfterAnOutageStrandsTheOthers(cfg: Config, now: Time, live: set<string>, run: seq<Step>,
                                             cookie: Payload, r: nat, q: nat, answer: Shared)
    requires cfg.revalidateInterval > 0 && PlainCookie(cookie) && cookie.refreshToken in live
    requires EnabledRun(Start(now, live), run) && CalmRun(Start(now, live), run, cookie)
    requires var s := AfterRun(Start(now, live), run);
             && r != q && CameBack(s, r, cookie) && CameBack(s, q, cookie) && s.requests[q].phase.answer.Failed?
             && s.requests[r].token == s.requests[q].token == cookie.refreshToken
             && answer.Granted? && Enabled(s, Access(r, answer))
    ensures var s := AfterRun(Start(now, live), run);
            var t := After(s, Access(r, answer));
            && cookie.refreshToken !in t.idp.live && t.requests[q].token == cookie.refreshToken
            && AfterGrant(cfg, s.requests[q].payload, s.requests[q].started, s.requests[q].phase.answer)
               == Stamped(BackedOff(cfg, s.requests[q].payload, s.requests[q].started))
            && s.requests[q].payload.refreshToken == cookie.refreshToken
  {
    RunKeepsOneFlight(Start(now, live), run, cookie);
    CameBackWithAGrant(AfterRun(Start(now, live), run), cookie, q);
  }
}
