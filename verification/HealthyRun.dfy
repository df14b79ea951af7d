/**
 A run of the kind the browser's theorem is about: two tabs fall due together, share one grant, and store the
 rotated token; five minutes later one of them starts the next flight with it.
 */
module HealthyRun {
  import opened Wrappers
  import opened Clock
  import opened Payload
  import opened Config
  import opened Answers
  import opened Revalidate
  import opened Flights
  import opened FlightSystem
  import opened BrowserRuns
  import OutageRun

  const CFG: Config := OutageRun.HOURLY
  const COOKIE: Payload := OutageRun.COOKIE
  const DUE: Time := OutageRun.DUE
  const ROTATION: Shared := OutageRun.ROTATION

  /** What both tabs store. */
  const RENEWED: Payload :=
    COOKIE.(accessToken := "a1", refreshToken := "r1", accessTokenExp := 0, lastValidated := 1300, exp := 4900)

  const MOVES: seq<Move> := [
    Send, Send, Inner(Ask(0, ROTATION)), Inner(Store(0)), Inner(Complete(0)), Inner(Wake(1)),
    Receive(1), Receive(0), Inner(Tick(300 * SECOND)), Send]

  function First(): Browser {
    FirstVisit(DUE, {"r0"}, COOKIE)
  }

  function TheFlights(res: Option<Shared>, done: bool): Flights {
    OutageRun.TheFlights(res, done)
  }

  function Tab(phase: Phase, token: string): Request {
    OutageRun.Tab(phase, token)
  }

  const BEFORE: Idp := Idp({"r0"}, {})
  const AFTER: Idp := Idp({"r1"}, {"r0"})

  function Waits(tabs: seq<Request>): Browser {
    Browser(System(DUE, TheFlights(None, false), BEFORE, tabs, [], []), Some(COOKIE), {})
  }

  function Works(res: Option<Shared>, done: bool, first: Request, second: Request): Browser {
    Browser(System(DUE, TheFlights(res, done), AFTER, [first, second], [Grant(0, "r0")], []), Some(COOKIE), {})
  }

  function Stored(now: Time, settled: set<nat>): Browser {
    Browser(System(now, TheFlights(Some(ROTATION), true), AFTER,
                   [Tab(Returned(ROTATION), "r1"), Tab(Returned(ROTATION), "r1")], [Grant(0, "r0")], []),
            Some(RENEWED), settled)
  }

  ghost predicate Goes(b: Browser, m: Move, c: Browser) {
    CanMove(CFG, b, m) && BrowserRuns.Calm(CFG, b, m) && Moved(CFG, b, m) == c
  }

  lemma BothSend()
    ensures Goes(First(), Send, Waits([Tab(Running, "r0")]))
    ensures Goes(Waits([Tab(Running, "r0")]), Send, Waits([Tab(Running, "r0"), Tab(Waiting, "r0")]))
  {
    OutageRun.TheFirstArrives();
    OutageRun.TheSecondArrives();
    assert TheFlights(None, false).all[0].key == GrantKey(COOKIE);
  }

  lemma TheFlightWorks()
    ensures Goes(Waits([Tab(Running, "r0"), Tab(Waiting, "r0")]), Inner(Ask(0, ROTATION)),
                 Works(None, false, Tab(Asked(ROTATION), "r0"), Tab(Waiting, "r0")))
    ensures Goes(Works(None, false, Tab(Asked(ROTATION), "r0"), Tab(Waiting, "r0")), Inner(Store(0)),
                 Works(Some(ROTATION), false, Tab(FlightSystem.Stored(ROTATION), "r0"), Tab(Waiting, "r0")))
  {
  }

  lemma BothReturn()
    ensures Goes(Works(Some(ROTATION), false, Tab(FlightSystem.Stored(ROTATION), "r0"), Tab(Waiting, "r0")),
            Inner(Complete(0)),
                 Works(Some(ROTATION), true, Tab(Returned(ROTATION), "r1"), Tab(Waiting, "r0")))
    ensures Goes(Works(Some(ROTATION), true, Tab(Returned(ROTATION), "r1"), Tab(Waiting, "r0")), Inner(Wake(1)),
                 Works(Some(ROTATION), true, Tab(Returned(ROTATION), "r1"), Tab(Returned(ROTATION), "r1")))
  {
  }

  lemma BothStore()
    ensures Goes(Works(Some(ROTATION), true, Tab(Returned(ROTATION), "r1"), Tab(Returned(ROTATION), "r1")), Receive(1),
                 Stored(DUE, {1}))
    ensures Goes(Stored(DUE, {1}), Receive(0), Stored(DUE, {0, 1}))
    ensures Goes(Stored(DUE, {0, 1}), Inner(Tick(300 * SECOND)), Stored(1600 * SECOND, {0, 1}))
  {
    assert {1} + {0} == {0, 1};
  }

  /** Five minutes later the renewed cookie is due. */
  lemma TheRenewedCookieIsDue()
    ensures DueWork(CFG, RENEWED, 1600 * SECOND).AskIdp? && Need(CFG, RENEWED, 1600 * SECOND).AtIdp?
    ensures PlainCookie(RENEWED) && GrantKey(RENEWED) != GrantKey(COOKIE)
  {
    GrantKeyIdentifies(RENEWED, COOKIE);
  }

  lemma TheNextFlightLeads(s: System)
    requires s == Stored(1600 * SECOND, {0, 1}).s
    ensures Enabled(s, Arrive(AtIdp, RENEWED))
    ensures var t := After(s, Arrive(AtIdp, RENEWED));
            t.idp == s.idp && t.grants == s.grants && |t.requests| == 3 && t.requests[2].phase.Running?
  {
    TheRenewedCookieIsDue();
  }

  lemma TheNextFlightStarts(b: Browser)
    requires b == Stored(1600 * SECOND, {0, 1})
    ensures CanMove(CFG, b, Send) && BrowserRuns.Calm(CFG, b, Send)
    ensures Moved(CFG, b, Send) == b.(s := After(b.s, Arrive(AtIdp, RENEWED)))
  {
    TheRenewedCookieIsDue();
    TheNextFlightLeads(b.s);
    assert forall i :: 0 <= i < |b.s.flights.all| ==> b.s.flights.all[i].key == GrantKey(COOKIE);
  }

  ghost predicate IsUnderWay(b: Browser) {
    && b.jar == Some(RENEWED) && b.s.idp == Idp({"r1"}, {"r0"}) && |b.s.grants| == 1
    && |b.s.requests| == 3 && b.s.requests[2].phase.Running?
  }

  lemma TheNextVisit(b: Browser) returns (c: Browser)
    requires b == Stored(1600 * SECOND, {0, 1})
    ensures Goes(b, Send, c) && IsUnderWay(c)
  {
    TheNextFlightStarts(b);
    TheNextFlightLeads(b.s);
    c := Moved(CFG, b, Send);
  }

  // ----- the whole run -----

  ghost predicate Reaches(moves: seq<Move>, b: Browser) {
    CalmMoves(CFG, First(), moves) && RunMoves(CFG, First(), moves) == b
  }

  /** A prefix of a run, extended by the run's next move. */
  lemma ReachAlong(moves: seq<Move>, n: nat, b: Browser, c: Browser)
    requires n < |moves| && Reaches(moves[..n], b) && Goes(b, moves[n], c)
    ensures Reaches(moves[..n + 1], c)
  {
    MovesAppend(CFG, First(), moves[..n], moves[n]);
    assert moves[..n + 1] == moves[..n] + [moves[n]];
  }

  lemma ReachTwo(moves: seq<Move>, n: nat, b: Browser, c: Browser, d: Browser)
    requires n + 1 < |moves| && Reaches(moves[..n], b) && Goes(b, moves[n], c) && Goes(c, moves[n + 1], d)
    ensures Reaches(moves[..n + 2], d)
  {
    ReachAlong(moves, n, b, c);
    ReachAlong(moves, n + 1, c, d);
  }

  lemma ReachTheAnswer(moves: seq<Move>)
    requires moves == MOVES
    ensures Reaches(moves[..4],
            Works(Some(ROTATION), false, Tab(FlightSystem.Stored(ROTATION), "r0"), Tab(Waiting, "r0")))
  {
    BothSend();
    TheFlightWorks();
    ReachTwo(moves, 0, First(), Waits([Tab(Running, "r0")]), Waits([Tab(Running, "r0"), Tab(Waiting, "r0")]));
    ReachTwo(moves, 2, Waits([Tab(Running, "r0"), Tab(Waiting, "r0")]),
             Works(None, false, Tab(Asked(ROTATION), "r0"), Tab(Waiting, "r0")),
             Works(Some(ROTATION), false, Tab(FlightSystem.Stored(ROTATION), "r0"), Tab(Waiting, "r0")));
  }

  lemma ReachTheJar(moves: seq<Move>)
    requires moves == MOVES
    ensures Reaches(moves[..7], Stored(DUE, {1}))
  {
    ReachTheAnswer(moves);
    BothReturn();
    BothStore();
    var done := Works(Some(ROTATION), true, Tab(Returned(ROTATION), "r1"), Tab(Returned(ROTATION), "r1"));
    ReachTwo(moves, 4, Works(Some(ROTATION), false, Tab(FlightSystem.Stored(ROTATION), "r0"), Tab(Waiting, "r0")),
             Works(Some(ROTATION), true, Tab(Returned(ROTATION), "r1"), Tab(Waiting, "r0")), done);
    ReachAlong(moves, 6, done, Stored(DUE, {1}));
  }

  lemma ReachTheNextVisit(moves: seq<Move>)
    requires moves == MOVES
    ensures Reaches(moves[..9], Stored(1600 * SECOND, {0, 1}))
  {
    ReachTheJar(moves);
    BothStore();
    ReachTwo(moves, 7, Stored(DUE, {1}), Stored(DUE, {0, 1}), Stored(1600 * SECOND, {0, 1}));
  }

  /** The run is calm to its end, one grant was sent, and the next flight is under way with the token it brought. */
  lemma TwoTabsShareOneGrant(moves: seq<Move>)
    requires moves == MOVES
    ensures CalmMoves(CFG, First(), moves)
    ensures IsUnderWay(RunMoves(CFG, First(), moves))
  {
    var last := Stored(1600 * SECOND, {0, 1});
    ReachTheNextVisit(moves);
    var next := TheNextVisit(last);
    ReachAlong(moves, 9, last, next);
    assert moves[..10] == moves;
  }
}
