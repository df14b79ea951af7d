/**
 One browser over many revalidations: it sends any number of concurrent requests with the cookie in its
 jar, stores every answer as it comes back, in any order, and goes on to the next flight.
 */
module BrowserRuns {
  import opened Wrappers
  import opened Clock
  import opened Payload
  import opened Config
  import opened Answers
  import opened Revalidate
  import opened Flights
  import opened FlightSystem

  /** The system, the cookie in the jar and the requests whose answer has been stored. */
  datatype Browser = Browser(s: System, jar: Option<Payload>, settled: set<nat>)

  datatype Move =
    | Send
    | Inner(step: Step)
    | Receive(r: nat)

  /** Sent, and neither answered into the jar nor given up. */
  predicate Pending(b: Browser, r: nat) {
    r < |b.s.requests| && r !in b.settled && !b.s.requests[r].phase.Cancelled?
  }

  /** The provider is due to be asked about the session. */
  predicate GrantDue(cfg: Config, p: Payload, now: Time) {
    now - ValidationAnchor(cfg, p) * SECOND >= cfg.revalidateInterval
  }

  /** The flight a request with this cookie needs now. */
  function Need(cfg: Config, p: Payload, now: Time): Kind {
    if GrantDue(cfg, p, now) then AtIdp else AtResolver
  }

  /** The answer is of the kind the request waits for. */
  predicate Fits(kind: Kind, answer: Shared) {
    if kind.AtIdp? then !answer.Resolved? else !answer.Granted?
  }

  ghost predicate CanMove(cfg: Config, b: Browser, m: Move) {
    match m
    case Send =>
      && b.jar.Some? && !DueWork(cfg, b.jar.value, b.s.now).Nothing?
      && Enabled(b.s, Arrive(Need(cfg, b.jar.value, b.s.now), b.jar.value))
    case Inner(step) => !step.Arrive? && Enabled(b.s, step) && (step.Access? ==> Pending(b, step.r))
    case Receive(r) =>
      && Pending(b, r) && b.s.requests[r].phase.Returned?
      && Fits(b.s.requests[r].kind, b.s.requests[r].phase.answer)
  }

  /**
   The session a request's answer carries: what the revalidation made of it, with the refresh token its handler
   left.
   */
  function StoredCookie(cfg: Config, q: Request): Option<Payload>
    requires cfg.revalidateInterval > 0 && q.phase.Returned? && Fits(q.kind, q.phase.answer)
  {
    var served := if q.kind.AtIdp? then AfterGrant(cfg, q.payload, q.started, q.phase.answer)
                  else AfterRetry(cfg, q.payload, q.started, q.phase.answer);
    match served
    case Stamped(p) => Some(p.(refreshToken := q.token))
    case Kept(p) => Some(p.(refreshToken := q.token))
    case SignedOut => None
  }

  ghost function Sent(cfg: Config, b: Browser): System
    requires CanMove(cfg, b, Send)
  {
    After(b.s, Arrive(Need(cfg, b.jar.value, b.s.now), b.jar.value))
  }

  ghost function Moved(cfg: Config, b: Browser, m: Move): Browser
    requires cfg.revalidateInterval > 0 && CanMove(cfg, b, m)
  {
    match m
    case Send => b.(s := Sent(cfg, b))
    case Inner(step) => b.(s := After(b.s, step))
    case Receive(r) => b.(jar := StoredCookie(cfg, b.s.requests[r]), settled := b.settled + {r})
  }

  /**
   What is asked of the browser and the service: a request either joins a flight that is running or
   retained, or starts one when no other request is pending; a handler refreshes only when its
   request is the only pending one, and nothing is sent until that one is answered; nothing panics.
   */
  ghost predicate Calm(cfg: Config, b: Browser, m: Move)
    requires CanMove(cfg, b, m)
  {
    match m
    case Send =>
      var key := KeyOf(Need(cfg, b.jar.value, b.s.now), b.jar.value);
      && (forall i :: 0 <= i < |b.s.flights.all| && b.s.flights.all[i].key == key ==>
            !Expired(b.s.flights.all[i], b.s.now))
      && (forall r: nat :: Pending(b, r) ==>
            !RefreshedBy(b.s, r) && exists i :: 0 <= i < |b.s.flights.all| && b.s.flights.all[i].key == key)
    case Inner(step) =>
      && !step.Panic?
      && (step.Access? ==> forall q: nat :: Pending(b, q) ==> q == step.r)
    case Receive(_) => true
  }

  ghost predicate CalmMoves(cfg: Config, b: Browser, moves: seq<Move>)
    requires cfg.revalidateInterval > 0
    decreases |moves|
  {
    moves != [] ==>
      && CanMove(cfg, b, moves[0]) && Calm(cfg, b, moves[0])
      && CalmMoves(cfg, Moved(cfg, b, moves[0]), moves[1..])
  }

  ghost function RunMoves(cfg: Config, b: Browser, moves: seq<Move>): Browser
    requires cfg.revalidateInterval > 0 && CalmMoves(cfg, b, moves)
    decreases |moves|
  {
    if moves == [] then b else RunMoves(cfg, Moved(cfg, b, moves[0]), moves[1..])
  }

  lemma {:induction false} MovesAppend(cfg: Config, b: Browser, moves: seq<Move>, last: Move)
    requires cfg.revalidateInterval > 0 && CalmMoves(cfg, b, moves)
    requires CanMove(cfg, RunMoves(cfg, b, moves), last) && Calm(cfg, RunMoves(cfg, b, moves), last)
    ensures CalmMoves(cfg, b, moves + [last])
    ensures RunMoves(cfg, b, moves + [last]) == Moved(cfg, RunMoves(cfg, b, moves), last)
    decreases |moves|
  {
    if moves == [] {
      assert [last][1..] == [];
    } else {
      MovesAppend(cfg, Moved(cfg, b, moves[0]), moves[1..], last);
      assert (moves + [last])[1..] == moves[1..] + [last];
    }
  }

  // ----- the invariant -----

  /** An answer of the right kind that is not an end of the session by the provider. */
  predicate AnswerOk(kind: Kind, answer: Shared) {
    match answer
    case Failed(err) => kind.AtIdp? && !IsSessionRevoked(err)
    case Granted(tokens, _, _) => kind.AtIdp? && tokens.refresh != ""
    case Resolved(_) => kind.AtResolver?
  }

  /** Whatever the pending request comes back with, the token it then holds is one the provider accepts. */
  ghost predicate PendingOk(s: System, r: nat)
    requires r < |s.requests|
  {
    var q := s.requests[r];
    match q.phase
    case Running => q.token in s.idp.live
    case Asked(answer) => Held(q.token, answer) in s.idp.live
    case Stored(answer) => Held(q.token, answer) in s.idp.live
    case Returned(_) => q.token in s.idp.live
    case Waiting =>
      q.call < |s.flights.all| && s.flights.all[q.call].done && s.flights.all[q.call].res.Some? ==>
        Held(q.token, s.flights.all[q.call].res.value) in s.idp.live
    case Cancelled => true
    case Crashed => true
  }

  ghost predicate RequestsOk(b: Browser) {
    && (forall r :: r in b.settled ==> r < |b.s.requests| && b.s.requests[r].phase.Returned?)
    && (forall f :: 0 <= f < |b.s.refreshes| ==>
          b.s.refreshes[f].request < |b.s.requests| && b.s.requests[b.s.refreshes[f].request].phase.Returned?)
    && (forall r: nat :: r < |b.s.requests| ==>
          && (!b.s.requests[r].phase.Returned? ==> b.s.requests[r].token == b.s.requests[r].payload.refreshToken)
          && (Pending(b, r) ==> PendingOk(b.s, r)))
  }

  /** Every answer so far keeps the session, and a granted one consumed the token its leader presented. */
  ghost predicate AnswersOk(s: System) {
    && Sound(s.idp)
    && (forall r: nat :: r < |s.requests| ==>
          var q := s.requests[r];
          && (HoldsAnswer(q.phase) ==> AnswerOk(q.kind, q.phase.answer))
          && ((q.phase.Asked? || q.phase.Stored?) && q.phase.answer.Granted? ==> q.payload.refreshToken in s.idp.spent))
    && (forall i: nat :: i < |s.flights.all| ==>
          var c := s.flights.all[i];
          && !c.panicked
          && c.leader < |s.requests|
          && (c.res.Some? ==> AnswerOk(s.requests[c.leader].kind, c.res.value))
          && (c.res.Some? && c.res.value.Granted? ==> s.requests[c.leader].payload.refreshToken in s.idp.spent))
  }

  /** While a leader is at work every pending request waits for its call and the jar holds its cookie. */
  ghost predicate OneAtATime(b: Browser) {
    forall r: nat :: r < |b.s.requests| && Leading(b.s.requests[r].phase) ==>
      && b.jar == Some(b.s.requests[r].payload)
      && forall q: nat :: Pending(b, q) ==> b.s.requests[q].call == b.s.requests[r].call
  }

  /** A grant that was due stays due, and a resolver retry at work was not preceded by a grant for its cookie. */
  ghost predicate DueOk(cfg: Config, s: System) {
    forall r: nat :: r < |s.requests| ==>
      var q := s.requests[r];
      && (q.kind.AtIdp? ==> GrantDue(cfg, q.payload, s.now))
      && (q.kind.AtResolver? && Leading(q.phase) ==>
            forall i :: 0 <= i < |s.flights.all| ==> s.flights.all[i].key != GrantKey(q.payload))
  }

  /** The request leads the cookie's grant, which is at work or brings a token the provider accepts. */
  ghost predicate Leads(s: System, r: nat, p: Payload)
    requires r < |s.requests|
  {
    var i := s.requests[r].call;
    && i < |s.flights.all|
    && var c := s.flights.all[i];
       && c.leader == r && c.key == GrantKey(p)
       && (c.done ==> c.res.Some? && c.res.value.Granted? && c.res.value.tokens.refresh in s.idp.live)
  }

  /**
   The cookie in the jar: its token is accepted, or the leader of its flight is still to be answered, or
   a request whose handler refreshed is.
   */
  ghost predicate JarOk(b: Browser) {
    b.jar.Some? && PlainCookie(b.jar.value) ==>
      || b.jar.value.refreshToken in b.s.idp.live
      || (exists r: nat :: Pending(b, r) && Leads(b.s, r, b.jar.value))
      || (exists r: nat :: Pending(b, r) && RefreshedBy(b.s, r))
  }

  /** Only an ended resolution empties the jar. */
  ghost predicate EndedOnly(b: Browser) {
    b.jar.None? ==>
      exists r :: r in b.settled && r < |b.s.requests| && b.s.requests[r].phase.Returned?
                  && EndsSession(b.s.requests[r].phase.answer)
  }

  ghost predicate Keeps(cfg: Config, b: Browser) {
    RequestsOk(b) && AnswersOk(b.s) && OneAtATime(b) && DueOk(cfg, b.s) && JarOk(b) && EndedOnly(b)
  }

  ghost predicate SignedIn(cfg: Config, b: Browser) {
    Inv(b.s) && Keeps(cfg, b)
  }

  // ----- every move keeps it -----

  /** Calls of one key that are not expired are one call. */
  lemma OneUnexpiredCall(s: System, i: nat, j: nat)
    requires Inv(s) && i < |s.flights.all| && j < |s.flights.all| && s.flights.all[i].key == s.flights.all[j].key
    requires !Expired(s.flights.all[i], s.now) && !Expired(s.flights.all[j], s.now)
    requires !s.flights.all[i].panicked && !s.flights.all[j].panicked
    ensures i == j
  {
    assert Separated(s, i, j) && Separated(s, j, i) && CallOk(s, i) && CallOk(s, j);
  }

  /** A call of the cookie's key was led by a request of that kind with the cookie's token. */
  lemma LeaderCarriesTheToken(s: System, i: nat, kind: Kind, p: Payload)
    requires Inv(s) && i < |s.flights.all| && PlainCookie(p) && s.flights.all[i].key == KeyOf(kind, p)
    ensures s.flights.all[i].leader < |s.requests|
    ensures var q := s.requests[s.flights.all[i].leader];
            && q.kind == kind && q.payload.refreshToken == p.refreshToken && q.payload.lastValidated == p.lastValidated
            && (kind.AtIdp? ==> q.payload.exp == p.exp)
  {
    assert CallOk(s, i);
    assert RequestOk(s, s.flights.all[i].leader);
    var q := s.requests[s.flights.all[i].leader].payload;
    GrantKeyIdentifies(q, p);
    ResolveKeyIdentifies(q, p);
    ResolveKeyIdentifies(p, q);
  }

  /** A cookie whose grant has been led is due for a grant. */
  lemma LedMeansDue(cfg: Config, s: System, i: nat, p: Payload)
    requires Inv(s) && DueOk(cfg, s) && PlainCookie(p) && i < |s.flights.all| && s.flights.all[i].key == GrantKey(p)
    ensures GrantDue(cfg, p, s.now)
  {
    LeaderCarriesTheToken(s, i, AtIdp, p);
  }

  /** A request that joins finds a call which leaves it with an accepted token. */
  lemma JoinedCallDelivers(cfg: Config, b: Browser, i: nat)
    requires SignedIn(cfg, b) && CanMove(cfg, b, Send) && Calm(cfg, b, Send)
    requires i < |b.s.flights.all| && b.s.flights.all[i].key == KeyOf(Need(cfg, b.jar.value, b.s.now), b.jar.value)
    requires b.s.flights.all[i].done
    ensures b.s.flights.all[i].res.Some?
    ensures Held(b.jar.value.refreshToken, b.s.flights.all[i].res.value) in b.s.idp.live
  {
    var s, p := b.s, b.jar.value;
    assert CallOk(s, i);
    LeaderCarriesTheToken(s, i, Need(cfg, p, s.now), p);
    if p.refreshToken !in s.idp.live {
      var r: nat :| Pending(b, r) && Leads(s, r, p);
      LedMeansDue(cfg, s, s.requests[r].call, p);
      OneUnexpiredCall(s, i, s.requests[r].call);
    }
  }

  /** What a request that joins adds. */
  ghost predicate Joined(s: System, t: System, kind: Kind, p: Payload, i: nat) {
    && i < |s.flights.all| && s.flights.all[i].key == KeyOf(kind, p)
    && t.flights.all == s.flights.all && t.idp == s.idp && t.refreshes == s.refreshes && t.now == s.now
    && t.requests == s.requests + [Request(kind, p, KeyOf(kind, p), s.now, i, Waiting, p.refreshToken)]
  }

  lemma JoinShape(s: System, kind: Kind, p: Payload)
    requires Inv(s) && Enabled(s, Arrive(kind, p)) && After(s, Arrive(kind, p)).requests[|s.requests|].phase.Waiting?
    ensures var t := After(s, Arrive(kind, p));
            var i := t.requests[|s.requests|].call;
            && Joined(s, t, kind, p, i)
            && (forall r: nat ::
                  r < |s.requests| && Leading(s.requests[r].phase) && s.requests[r].key == KeyOf(kind, p) ==>
                    s.requests[r].call == i)
  {
    forall r: nat | r < |s.requests| && Leading(s.requests[r].phase) && s.requests[r].key == KeyOf(kind, p)
      ensures s.requests[r].call == After(s, Arrive(kind, p)).requests[|s.requests|].call
    {
      assert RequestOk(s, r) && CallOk(s, s.requests[r].call);
    }
  }

  /** A leader at work for the jar's cookie is of the kind the next request needs, unless that one would lead. */
  lemma JoinsTheLeader(cfg: Config, b: Browser, i: nat, r: nat)
    requires SignedIn(cfg, b) && CanMove(cfg, b, Send)
    requires i < |b.s.flights.all| && b.s.flights.all[i].key == KeyOf(Need(cfg, b.jar.value, b.s.now), b.jar.value)
    requires r < |b.s.requests| && Leading(b.s.requests[r].phase)
    ensures b.s.requests[r].key == b.s.flights.all[i].key
  {
    assert RequestOk(b.s, r);
  }

  lemma JoinKeeps(cfg: Config, b: Browser, t: System, kind: Kind, p: Payload, i: nat)
    requires Keeps(cfg, b) && b.jar == Some(p) && Joined(b.s, t, kind, p, i)
    requires PendingOk(t, |b.s.requests|) && (kind.AtIdp? ==> GrantDue(cfg, p, b.s.now))
    requires forall r: nat :: r < |b.s.requests| && Leading(b.s.requests[r].phase) ==> b.s.requests[r].call == i
    ensures Keeps(cfg, b.(s := t))
  {
    var c := b.(s := t);
    forall r: nat | r < |b.s.requests|
      ensures (Pending(c, r) <==> Pending(b, r)) && (PendingOk(b.s, r) ==> PendingOk(t, r))
      ensures (Leads(b.s, r, p) ==> Leads(t, r, p)) && (RefreshedBy(b.s, r) ==> RefreshedBy(t, r))
    {
    }
  }

  /** What a request that starts a flight adds. */
  ghost predicate Led(s: System, t: System, kind: Kind, p: Payload) {
    && t.flights.all == s.flights.all + [Call(KeyOf(kind, p), s.now, |s.requests|, false, false, None, 0)]
    && t.idp == s.idp && t.refreshes == s.refreshes && t.now == s.now
    && t.requests == s.requests + [Request(kind, p, KeyOf(kind, p), s.now, |s.flights.all|, Running, p.refreshToken)]
  }

  lemma LeadShape(s: System, kind: Kind, p: Payload)
    requires Inv(s) && Enabled(s, Arrive(kind, p)) && After(s, Arrive(kind, p)).requests[|s.requests|].phase.Running?
    ensures Led(s, After(s, Arrive(kind, p)), kind, p)
    ensures forall i: nat ::
              i < |s.flights.all| && s.flights.all[i].key == KeyOf(kind, p) && !s.flights.all[i].panicked ==>
                Expired(s.flights.all[i], s.now)
  {
    ArrivalLeadsExactly(s, kind, p);
    forall i: nat | i < |s.flights.all| && s.flights.all[i].key == KeyOf(kind, p) ensures Idle(s, i) {
    }
  }

  /** A request that starts a flight: nothing is pending, so the jar's token is accepted. */
  lemma LeadKeeps(cfg: Config, b: Browser, t: System, kind: Kind, p: Payload)
    requires Keeps(cfg, b) && b.jar == Some(p) && PlainCookie(p) && Led(b.s, t, kind, p)
    requires kind.AtIdp? ==> GrantDue(cfg, p, b.s.now)
    requires kind.AtResolver? ==>
               forall i :: 0 <= i < |b.s.flights.all| ==> b.s.flights.all[i].key != GrantKey(p)
    requires kind.AtResolver? ==> KeyOf(kind, p) != GrantKey(p)
    requires forall r: nat :: !Pending(b, r)
    ensures Keeps(cfg, b.(s := t))
  {
    var c, n := b.(s := t), |b.s.requests|;
    forall r: nat | r < n ensures !Pending(c, r) && !Leading(t.requests[r].phase) {
      assert !Pending(b, r) && t.requests[r] == b.s.requests[r];
    }
    assert p.refreshToken in b.s.idp.live;
  }

  lemma SendKeepsSignedIn(cfg: Config, b: Browser)
    requires SignedIn(cfg, b) && CanMove(cfg, b, Send) && Calm(cfg, b, Send)
    ensures SignedIn(cfg, b.(s := Sent(cfg, b)))
  {
    var s, p := b.s, b.jar.value;
    var kind := Need(cfg, p, s.now);
    var t := After(s, Arrive(kind, p));
    StepKeepsInv(s, Arrive(kind, p));
    if t.requests[|s.requests|].phase.Running? {
      LeadShape(s, kind, p);
      ResolveKeyIdentifies(p, p);
      forall i: nat | kind.AtResolver? && i < |s.flights.all| ensures s.flights.all[i].key != GrantKey(p) {
        if s.flights.all[i].key == GrantKey(p) {
          LedMeansDue(cfg, s, i, p);
        }
      }
      LeadKeeps(cfg, b, t, kind, p);
    } else {
      JoinShape(s, kind, p);
      var i := t.requests[|s.requests|].call;
      if s.flights.all[i].done {
        JoinedCallDelivers(cfg, b, i);
      }
      forall r: nat | r < |s.requests| && Leading(s.requests[r].phase) ensures s.requests[r].call == i {
        JoinsTheLeader(cfg, b, i, r);
      }
      JoinKeeps(cfg, b, t, kind, p, i);
    }
  }

  /** While a leader is at work no pending request has an answer, and it is the only leader. */
  lemma LeaderWorksAlone(cfg: Config, b: Browser, r: nat, q: nat)
    requires SignedIn(cfg, b) && r < |b.s.requests| && Leading(b.s.requests[r].phase) && Pending(b, q)
    ensures b.s.requests[q].call == b.s.requests[r].call < |b.s.flights.all|
    ensures !b.s.flights.all[b.s.requests[r].call].done
    ensures !b.s.requests[q].phase.Returned? && (Leading(b.s.requests[q].phase) ==> q == r)
    ensures b.s.requests[q].payload.refreshToken == b.s.requests[r].payload.refreshToken
    ensures b.s.requests[q].token == b.s.requests[r].token == b.s.requests[r].payload.refreshToken
    ensures b.s.flights.all[b.s.requests[r].call].key == b.s.requests[r].key
    ensures b.s.flights.all[b.s.requests[r].call].leader == r
    ensures b.s.requests[r].key == KeyOf(b.s.requests[r].kind, b.s.requests[r].payload)
  {
    assert RequestOk(b.s, r) && RequestOk(b.s, q) && CallOk(b.s, b.s.requests[r].call);
    LeaderCarriesTheToken(b.s, b.s.requests[r].call, b.s.requests[q].kind, b.s.requests[q].payload);
  }

  /** A step that starts no request and no call, and no request's work anew. */
  lemma StaysAtWork(cfg: Config, b: Browser, c: Browser)
    requires DueOk(cfg, b.s) && OneAtATime(b) && c.jar == b.jar && c.settled == b.settled && b.s.now <= c.s.now
    requires |c.s.requests| == |b.s.requests| && |c.s.flights.all| == |b.s.flights.all|
    requires forall i :: 0 <= i < |b.s.flights.all| ==> c.s.flights.all[i].key == b.s.flights.all[i].key
    requires forall r: nat :: r < |b.s.requests| ==>
               var p, q := b.s.requests[r], c.s.requests[r];
               && q.kind == p.kind && q.payload == p.payload && q.call == p.call
               && (Leading(q.phase) ==> Leading(p.phase)) && (q.phase.Cancelled? <== p.phase.Cancelled?)
    ensures DueOk(cfg, c.s) && OneAtATime(c)
  {
    forall r: nat | Pending(c, r) ensures Pending(b, r) {
    }
  }

  lemma AskKeepsPending(cfg: Config, b: Browser, r: nat, answer: Shared)
    requires SignedIn(cfg, b) && CanMove(cfg, b, Inner(Ask(r, answer)))
    ensures RequestsOk(b.(s := After(b.s, Ask(r, answer))))
  {
    var s, c := b.s, b.(s := After(b.s, Ask(r, answer)));
    LeaderWorksAlone(cfg, b, r, r);
    forall q: nat | Pending(c, q) ensures PendingOk(c.s, q) {
      LeaderWorksAlone(cfg, b, r, q);
    }
  }

  lemma AskKeepsSignedIn(cfg: Config, b: Browser, r: nat, answer: Shared)
    requires SignedIn(cfg, b) && CanMove(cfg, b, Inner(Ask(r, answer)))
    ensures Keeps(cfg, b.(s := After(b.s, Ask(r, answer))))
  {
    var s, c := b.s, b.(s := After(b.s, Ask(r, answer)));
    AskKeepsPending(cfg, b, r, answer);
    StaysAtWork(cfg, b, c);
    LeaderWorksAlone(cfg, b, r, r);
    assert Pending(c, r) && (s.requests[r].kind.AtIdp? ==> Leads(c.s, r, s.requests[r].payload));
  }

  lemma StoreKeepsPending(cfg: Config, b: Browser, r: nat)
    requires SignedIn(cfg, b) && CanMove(cfg, b, Inner(Store(r)))
    ensures RequestsOk(b.(s := After(b.s, Store(r))))
  {
    var s, c := b.s, b.(s := After(b.s, Store(r)));
    LeaderWorksAlone(cfg, b, r, r);
    forall q: nat | Pending(c, q) ensures PendingOk(c.s, q) {
      LeaderWorksAlone(cfg, b, r, q);
    }
  }

  lemma StoreKeepsSignedIn(cfg: Config, b: Browser, r: nat)
    requires SignedIn(cfg, b) && CanMove(cfg, b, Inner(Store(r)))
    ensures Keeps(cfg, b.(s := After(b.s, Store(r))))
  {
    var s, c := b.s, b.(s := After(b.s, Store(r)));
    StoreKeepsPending(cfg, b, r);
    StaysAtWork(cfg, b, c);
    LeaderWorksAlone(cfg, b, r, r);
    assert Pending(c, r) && (s.requests[r].kind.AtIdp? ==> Leads(c.s, r, s.requests[r].payload));
  }

  lemma CompleteKeepsPending(cfg: Config, b: Browser, r: nat)
    requires SignedIn(cfg, b) && CanMove(cfg, b, Inner(Complete(r)))
    ensures RequestsOk(b.(s := After(b.s, Complete(r))))
  {
    var s, c := b.s, b.(s := After(b.s, Complete(r)));
    LeaderWorksAlone(cfg, b, r, r);
    assert RequestOk(s, r);
    forall q: nat | Pending(c, q) ensures PendingOk(c.s, q) {
      LeaderWorksAlone(cfg, b, r, q);
    }
  }

  lemma CompleteKeepsSignedIn(cfg: Config, b: Browser, r: nat)
    requires SignedIn(cfg, b) && CanMove(cfg, b, Inner(Complete(r)))
    ensures Keeps(cfg, b.(s := After(b.s, Complete(r))))
  {
    var s, c := b.s, b.(s := After(b.s, Complete(r)));
    CompleteKeepsPending(cfg, b, r);
    StaysAtWork(cfg, b, c);
    LeaderWorksAlone(cfg, b, r, r);
    assert RequestOk(s, r);
    assert Pending(c, r) && (s.requests[r].phase.answer.Granted? ==> Leads(c.s, r, s.requests[r].payload));
  }

  /**
   A step that changes neither the calls nor the provider, and drops neither a leader nor a request whose
   handler refreshed.
   */
  lemma StaysCovered(b: Browser, c: Browser)
    requires JarOk(b) && c.jar == b.jar && c.s.flights.all == b.s.flights.all && c.s.idp == b.s.idp
    requires c.s.refreshes == b.s.refreshes && |c.s.requests| == |b.s.requests|
    requires forall r: nat :: r < |b.s.requests| ==> c.s.requests[r].call == b.s.requests[r].call
    requires forall r: nat :: Pending(b, r) && (RefreshedBy(b.s, r) || LeadsItsCall(b.s, r)) ==> Pending(c, r)
    ensures JarOk(c)
  {
    if r: nat :| Pending(b, r) && b.jar.Some? && Leads(b.s, r, b.jar.value) {
      assert LeadsItsCall(b.s, r) && Pending(c, r) && Leads(c.s, r, b.jar.value);
    }
    if r: nat :| Pending(b, r) && RefreshedBy(b.s, r) {
      assert Pending(c, r) && RefreshedBy(c.s, r);
    }
  }

  predicate LeadsItsCall(s: System, r: nat)
    requires r < |s.requests|
  {
    s.requests[r].call < |s.flights.all| && s.flights.all[s.requests[r].call].leader == r
  }

  lemma WakeKeepsSignedIn(cfg: Config, b: Browser, r: nat)
    requires SignedIn(cfg, b) && CanMove(cfg, b, Inner(Wake(r)))
    ensures Keeps(cfg, b.(s := After(b.s, Wake(r))))
  {
    var s, c := b.s, b.(s := After(b.s, Wake(r)));
    StaysAtWork(cfg, b, c);
    assert RequestOk(s, r) && CallOk(s, s.requests[r].call);
    LeaderCarriesTheToken(s, s.requests[r].call, s.requests[r].kind, s.requests[r].payload);
    StaysCovered(b, c);
  }

  lemma CancelKeepsSignedIn(cfg: Config, b: Browser, r: nat)
    requires SignedIn(cfg, b) && CanMove(cfg, b, Inner(Cancel(r)))
    ensures Keeps(cfg, b.(s := After(b.s, Cancel(r))))
  {
    assert RequestOk(b.s, r);
    StaysAtWork(cfg, b, b.(s := After(b.s, Cancel(r))));
    StaysCovered(b, b.(s := After(b.s, Cancel(r))));
  }

  lemma TickKeepsSignedIn(cfg: Config, b: Browser, elapsed: nat)
    requires SignedIn(cfg, b)
    ensures Keeps(cfg, b.(s := After(b.s, Tick(elapsed))))
  {
    StaysCovered(b, b.(s := After(b.s, Tick(elapsed))));
  }

  /** A handler that refreshes while its request is the only pending one. */
  lemma AccessKeepsSignedIn(cfg: Config, b: Browser, r: nat, answer: Shared)
    requires SignedIn(cfg, b) && CanMove(cfg, b, Inner(Access(r, answer))) && Calm(cfg, b, Inner(Access(r, answer)))
    ensures Keeps(cfg, b.(s := After(b.s, Access(r, answer))))
  {
    var s, c := b.s, b.(s := After(b.s, Access(r, answer)));
    forall q: nat | q < |s.requests| ensures !Leading(s.requests[q].phase) {
      if Leading(s.requests[q].phase) {
        LeaderWorksAlone(cfg, b, q, r);
      }
    }
    forall q: nat | Pending(c, q) ensures q == r {
      assert Pending(b, q);
    }
    assert c.s.refreshes[|s.refreshes|].request == r;
    assert Pending(c, r) && RefreshedBy(c.s, r);
  }

  lemma ReceiveKeepsSignedIn(cfg: Config, b: Browser, r: nat)
    requires SignedIn(cfg, b) && cfg.revalidateInterval > 0 && CanMove(cfg, b, Receive(r))
    ensures Keeps(cfg, Moved(cfg, b, Receive(r)))
  {
    var s, c := b.s, Moved(cfg, b, Receive(r));
    forall q: nat | q < |s.requests| ensures !Leading(s.requests[q].phase) {
      if Leading(s.requests[q].phase) {
        LeaderWorksAlone(cfg, b, q, r);
      }
    }
    forall q: nat | Pending(c, q) ensures Pending(b, q) {
    }
  }

  lemma MoveKeepsSignedIn(cfg: Config, b: Browser, m: Move)
    requires SignedIn(cfg, b) && cfg.revalidateInterval > 0 && CanMove(cfg, b, m) && Calm(cfg, b, m)
    ensures SignedIn(cfg, Moved(cfg, b, m))
  {
    match m
    case Send => SendKeepsSignedIn(cfg, b);
    case Receive(r) => ReceiveKeepsSignedIn(cfg, b, r);
    case Inner(step) =>
      StepKeepsInv(b.s, step);
      match step {
        case Tick(elapsed) => TickKeepsSignedIn(cfg, b, elapsed);
        case Ask(r, answer) => AskKeepsSignedIn(cfg, b, r, answer);
        case Store(r) => StoreKeepsSignedIn(cfg, b, r);
        case Complete(r) => CompleteKeepsSignedIn(cfg, b, r);
        case Wake(r) => WakeKeepsSignedIn(cfg, b, r);
        case Cancel(r) => CancelKeepsSignedIn(cfg, b, r);
        case Access(r, answer) => AccessKeepsSignedIn(cfg, b, r, answer);
      }
  }

  lemma {:induction false} MovesKeepSignedIn(cfg: Config, b: Browser, moves: seq<Move>)
    requires SignedIn(cfg, b) && cfg.revalidateInterval > 0 && CalmMoves(cfg, b, moves)
    ensures SignedIn(cfg, RunMoves(cfg, b, moves))
    decreases |moves|
  {
    if moves != [] {
      MoveKeepsSignedIn(cfg, b, moves[0]);
      MovesKeepSignedIn(cfg, Moved(cfg, b, moves[0]), moves[1..]);
    }
  }

  function FirstVisit(now: Time, live: set<string>, cookie: Payload): Browser {
    Browser(FlightSystem.Start(now, live), Some(cookie), {})
  }

  /**
   A calm browser is never signed out by its own concurrency, over any number of flights of either kind,
   outages and handlers' refreshes: no request ever reads invalid_grant, every answer fits the request that
   waits for it, the jar loses its session only to a resolution that ended it, and whenever nothing is
   pending the cookie in the jar carries a token the provider accepts.
   */
  lemma BrowserStaysSignedIn(cfg: Config, now: Time, live: set<string>, cookie: Payload, moves: seq<Move>)
    requires cfg.revalidateInterval > 0 && "" !in live && cookie.refreshToken in live
    requires CalmMoves(cfg, FirstVisit(now, live, cookie), moves)
    ensures var b := RunMoves(cfg, FirstVisit(now, live, cookie), moves);
            && (forall r: nat :: r < |b.s.requests| && b.s.requests[r].phase.Returned? ==>
                  AnswerOk(b.s.requests[r].kind, b.s.requests[r].phase.answer))
            && EndedOnly(b)
            && (b.jar.Some? && PlainCookie(b.jar.value) && (forall r: nat :: !Pending(b, r)) ==>
                  b.jar.value.refreshToken in b.s.idp.live)
  {
    MovesKeepSignedIn(cfg, FirstVisit(now, live, cookie), moves);
  }
}
