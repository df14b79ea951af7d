/**
 The run in which a handler's refresh after a failed flight signs another tab out. The provider is down
 when a session falls due; two requests share the failed flight; the first one's handler then refreshes
 with AccessToken. The second one's backed-off cookie still carries the consumed token, and is refused at
 its next check.
 */
module OutageRun {
  import opened Wrappers
  import opened Clock
  import opened Payload
  import opened Config
  import opened Answers
  import opened Revalidate
  import opened Flights
  import opened FlightSystem

  // A one-hour session checked every five minutes, last validated at 1000 s.
  const HOURLY: Config := Config("s", 3600 * SECOND, true, 300 * SECOND, false, false, false)

  const COOKIE: Payload :=
    Payload(Profile("u", "", true, "", "o", [], map[], [], ""), "", 4600, "a0", "r0", 0, 1000, 0, "", 0)

  const DUE: Time := 1300 * SECOND
  const RETRY: Time := 1331 * SECOND
  const DOWN: Shared := Failed(Transport)
  const ROTATION: Shared := Granted(Token("a1", "r1", 0), 0, None)
  const LATER: Payload := COOKIE.(lastValidated := 1030)

  const FLIGHT: seq<Step> := 
    [Arrive(AtIdp, COOKIE), Arrive(AtIdp, COOKIE), Ask(0, DOWN), Store(0), Complete(0), Wake(1)]
  const REFRESH: seq<Step> := [Access(0, ROTATION), Tick(31 * SECOND), Arrive(AtIdp, LATER)]

  function TheKey(): string {
    GrantKey(COOKIE)
  }

  function TheCall(res: Option<Shared>, done: bool): Call {
    Call(TheKey(), DUE, 0, false, done, res, if done then DUE else 0)
  }

  function TheFlights(res: Option<Shared>, done: bool): Flights {
    Flights(map[TheKey() := 0], [TheCall(res, done)])
  }

  function Tab(phase: Phase, token: string): Request {
    Request(AtIdp, COOKIE, TheKey(), DUE, 0, phase, token)
  }

  const LIVE: Idp := Idp({"r0"}, {})

  function BeforeTheAnswer(tabs: seq<Request>): System {
    System(DUE, TheFlights(None, false), LIVE, tabs, [], [])
  }

  /** Two tabs wait for one flight. */
  lemma TheFirstArrives()
    ensures var s := Start(DUE, {"r0"});
            && Enabled(s, Arrive(AtIdp, COOKIE))
            && After(s, Arrive(AtIdp, COOKIE)) == BeforeTheAnswer([Tab(Running, "r0")])
  {
  }

  lemma TheSecondArrives()
    ensures var s := BeforeTheAnswer([Tab(Running, "r0")]);
            && Enabled(s, Arrive(AtIdp, COOKIE))
            && After(s, Arrive(AtIdp, COOKIE)) == BeforeTheAnswer([Tab(Running, "r0"), Tab(Waiting, "r0")])
  {
  }

  function WhenAsked(): System {
    System(DUE, TheFlights(None, false), LIVE, [Tab(Asked(DOWN), "r0"), Tab(Waiting, "r0")], [Grant(0, "r0")], [])
  }

  function WhenStored(): System {
    System(DUE, TheFlights(Some(DOWN), false), LIVE, [Tab(Stored(DOWN), "r0"), Tab(Waiting, "r0")],
        [Grant(0, "r0")], [])
  }

  function WhenDone(): System {
    System(DUE, TheFlights(Some(DOWN), true), LIVE, [Tab(Returned(DOWN), "r0"), Tab(Waiting, "r0")],
        [Grant(0, "r0")], [])
  }

  lemma TheFlightFails()
    ensures var s := BeforeTheAnswer([Tab(Running, "r0"), Tab(Waiting, "r0")]);
            && Enabled(s, Ask(0, DOWN)) && After(s, Ask(0, DOWN)) == WhenAsked()
            && Enabled(WhenAsked(), Store(0)) && After(WhenAsked(), Store(0)) == WhenStored()
  {
  }

  lemma BothReturn()
    ensures Enabled(WhenStored(), Complete(0)) && After(WhenStored(), Complete(0)) == WhenDone()
    ensures Enabled(WhenDone(), Wake(1)) && After(WhenDone(), Wake(1)) == AfterFlight()
  {
  }

  function AfterFlight(): System {
    System(DUE, TheFlights(Some(DOWN), true), LIVE, [Tab(Returned(DOWN), "r0"), Tab(Returned(DOWN), "r0")],
        [Grant(0, "r0")], [])
  }

  function Rotated(now: Time): System {
    System(now, TheFlights(Some(DOWN), true), Idp({"r1"}, {"r0"}),
           [Tab(Returned(DOWN), "r1"), Tab(Returned(DOWN), "r0")], [Grant(0, "r0")], [Refresh(0, "r0")])
  }

  lemma TheHandlerRefreshes()
    ensures Enabled(AfterFlight(), Access(0, ROTATION))
    ensures After(AfterFlight(), Access(0, ROTATION)) == Rotated(DUE)
    ensures Enabled(Rotated(DUE), Tick(31 * SECOND))
    ensures After(Rotated(DUE), Tick(31 * SECOND)) == Rotated(RETRY)
  {
  }

  /** What the second tab's cookie is after the failed flight, and that it falls due again at 1331 s. */
  lemma TheSecondCookie()
    ensures DueWork(HOURLY, COOKIE, DUE).AskIdp?
    ensures AfterGrant(HOURLY, COOKIE, DUE, DOWN) == Stamped(LATER)
    ensures DueWork(HOURLY, LATER, RETRY).AskIdp?
  {
  }

  lemma TheSecondTabAsks()
    ensures var s := Rotated(RETRY);
            var t := After(s, Arrive(AtIdp, LATER));
            && Enabled(s, Arrive(AtIdp, LATER))
            && t.idp == s.idp && t.refreshes == s.refreshes && |t.requests| == 3 && t.requests[1] == s.requests[1]
            && t.requests[2].phase.Running? && t.requests[2].payload == LATER && t.requests[2].started == RETRY
            && Enabled(t, Ask(2, Failed(Retrieve(INVALID_GRANT))))
  {
    GrantKeyIdentifies(COOKIE, LATER);
  }

  ghost predicate Reaches(run: seq<Step>, t: System) {
    EnabledRun(Start(DUE, {"r0"}), run) && AfterRun(Start(DUE, {"r0"}), run) == t
  }

  lemma ReachNext(run: seq<Step>, t: System, step: Step)
    requires Reaches(run, t) && Enabled(t, step)
    ensures Reaches(run + [step], After(t, step))
  {
    RunAppend(Start(DUE, {"r0"}), run, step);
  }

  /** A prefix of a run, extended by the run's next step. */
  lemma ReachAlong(run: seq<Step>, n: nat, s: System, t: System)
    requires n < |run| && Reaches(run[..n], s) && Enabled(s, run[n]) && t == After(s, run[n])
    ensures Reaches(run[..n + 1], t)
  {
    ReachNext(run[..n], s, run[n]);
    assert run[..n + 1] == run[..n] + [run[n]];
  }

  lemma ArrivalsRun(run: seq<Step>)
    requires FLIGHT <= run
    ensures Reaches(run[..2], BeforeTheAnswer([Tab(Running, "r0"), Tab(Waiting, "r0")]))
  {
    TheFirstArrives();
    TheSecondArrives();
    var first := BeforeTheAnswer([Tab(Running, "r0")]);
    ReachAlong(run, 0, Start(DUE, {"r0"}), first);
    ReachAlong(run, 1, first, BeforeTheAnswer([Tab(Running, "r0"), Tab(Waiting, "r0")]));
  }

  lemma AnswerRuns(run: seq<Step>)
    requires FLIGHT <= run
    ensures Reaches(run[..4], WhenStored())
  {
    ArrivalsRun(run);
    TheFlightFails();
    ReachAlong(run, 2, BeforeTheAnswer([Tab(Running, "r0"), Tab(Waiting, "r0")]), WhenAsked());
    ReachAlong(run, 3, WhenAsked(), WhenStored());
  }

  lemma FlightRuns(run: seq<Step>)
    requires FLIGHT <= run
    ensures Reaches(run[..6], AfterFlight())
  {
    AnswerRuns(run);
    BothReturn();
    ReachAlong(run, 4, WhenStored(), WhenDone());
    ReachAlong(run, 5, WhenDone(), AfterFlight());
  }

  lemma RefreshRuns(run: seq<Step>)
    requires run == FLIGHT + REFRESH
    ensures Reaches(run[..8], Rotated(RETRY))
  {
    FlightRuns(run);
    TheHandlerRefreshes();
    ReachAlong(run, 6, AfterFlight(), Rotated(DUE));
    ReachAlong(run, 7, Rotated(DUE), Rotated(RETRY));
  }

  lemma WholeRun(run: seq<Step>)
    requires run == FLIGHT + REFRESH
    ensures Reaches(run, After(Rotated(RETRY), Arrive(AtIdp, LATER)))
  {
    RefreshRuns(run);
    TheSecondTabAsks();
    ReachAlong(run, 8, Rotated(RETRY), After(Rotated(RETRY), Arrive(AtIdp, LATER)));
    assert run[..9] == run;
  }

  /**
   The whole run: each tab asks when its cookie is due, and the second tab is refused a token only the first
   has used.
   */
  lemma SecondTabIsSignedOut(run: seq<Step>)
    requires run == FLIGHT + REFRESH
    ensures EnabledRun(Start(DUE, {"r0"}), run)
    ensures var s := AfterRun(Start(DUE, {"r0"}), run);
            && ByHandler(s, "r0") && "r0" in s.idp.spent && |s.requests| == 3
            && s.requests[1].phase == Returned(DOWN)
            && AfterGrant(HOURLY, s.requests[1].payload, s.requests[1].started, DOWN) == Stamped(s.requests[2].payload)
            && DueWork(HOURLY, s.requests[2].payload, s.requests[2].started).AskIdp?
            && Enabled(s, Ask(2, Failed(Retrieve(INVALID_GRANT))))
            && var refused := Failed(Retrieve(INVALID_GRANT));
               AfterGrant(HOURLY, s.requests[2].payload, s.requests[2].started, refused).SignedOut?
  {
    WholeRun(run);
    TheSecondCookie();
    TheSecondTabAsks();
    assert Rotated(RETRY).refreshes[0].token == "r0";
  }
}
