/**
 Step-up authentication (stepup.go): the max_age marker, the callback's auth_time check of
 sections 3.1.2.1 and 3.1.3.7 of OpenID Connect Core 1.0, and the never-advance merge.
 */
module StepUp {
  import opened Wrappers
  import opened Clock
  import opened Decimal
  import opened Payload

  const MAX_AGE_MAX_SECONDS := 0x7fff_ffff
  const MAX_AGE_MAX_DIGITS := 10
  const AUTH_TIME_SKEW: Duration := 30 * SECOND

  // ----- the marker -----

  datatype MaxAge = Absent | Malformed | Requested(seconds: nat)

  /** parseMaxAge: a /auth/login max_age value. */
  function ParseMaxAge(raw: string): MaxAge {
    if raw == "" then Absent
    else if |raw| > MAX_AGE_MAX_DIGITS || !AllDigits(raw) then Malformed
    else if NatValue(raw) > MAX_AGE_MAX_SECONDS then Malformed
    else Requested(NatValue(raw))
  }

  datatype Marker = Marker(maxAge: nat, startedAt: int)

  /** maxAgeCookieValue: "<max_age>.<start unix seconds>". */
  function MaxAgeCookieValue(maxAge: nat, startedAt: Time): string {
    FormatInt(maxAge) + "." + FormatInt(Unix(startedAt))
  }

  /** The index of the first '.', or |v| when there is none. */
  function IndexOfDot(v: string): (i: nat)
    ensures i <= |v| && '.' !in v[..i] && (i < |v| ==> v[i] == '.')
  {
    if v == "" || v[0] == '.' then 0
    else
      var i := IndexOfDot(v[1..]) + 1;
      assert v[..i] == [v[0]] + v[1..][..i - 1];
      i
  }

  /** parseMaxAgeCookie. */
  function ParseMaxAgeCookie(v: string): Option<Marker> {
    var cut := IndexOfDot(v);
    if cut == |v| then None
    else
      match (ParseMaxAge(v[..cut]), ParseInt(v[cut + 1..]))
      case (Requested(maxAge), Some(start)) => if start <= 0 then None else Some(Marker(maxAge, start))
      case _ => None
  }

  lemma DotSplits(left: string, right: string)
    requires '.' !in left
    ensures IndexOfDot(left + "." + right) == |left|
  {
    var v := left + "." + right;
    var i := IndexOfDot(v);
    assert v[|left|] == '.';
    forall k | 0 <= k < i ensures v[k] != '.' {
      assert v[k] in v[..i];
    }
    forall k | 0 <= k < |left| ensures v[k] != '.' {
      assert v[k] == left[k] && left[k] in left;
    }
  }

  lemma TenDigits()
    ensures Pow10(10) == 10_000_000_000
  {
    assert Pow10(10) == 10 * Pow10(9) && Pow10(9) == 10 * Pow10(8) && Pow10(8) == 10 * Pow10(7)
        && Pow10(7) == 10 * Pow10(6) && Pow10(6) == 10 * Pow10(5) && Pow10(5) == 10 * Pow10(4)
        && Pow10(4) == 10 * Pow10(3) && Pow10(3) == 10 * Pow10(2) && Pow10(2) == 10 * Pow10(1);
  }

  /** A marker is a max_age, a dot and a positive start second; anything else is refused. */
  lemma MarkerExactly(age: string, start: string)
    requires '.' !in age
    ensures ParseMaxAgeCookie(age).None?
    ensures ParseMaxAgeCookie(age + "." + start) ==
            if ParseMaxAge(age).Requested? && ParseInt(start).Some? && ParseInt(start).value > 0
            then Some(Marker(ParseMaxAge(age).seconds, ParseInt(start).value)) else None
  {
    DotSplits(age, start);
    var v := age + "." + start;
    assert v[..|age|] == age && v[|age| + 1..] == start;
  }

  /** Whatever max_age login accepts and whenever it starts, the callback reads back both. */
  lemma MarkerRoundTrip(raw: string, startedAt: Time)
    requires ParseMaxAge(raw).Requested?
    requires 0 < Unix(startedAt) <= INT64_MAX
    ensures ParseMaxAgeCookie(MaxAgeCookieValue(ParseMaxAge(raw).seconds, startedAt))
            == Some(Marker(ParseMaxAge(raw).seconds, Unix(startedAt)))
  {
    var m := ParseMaxAge(raw).seconds;
    var age, start := FormatInt(m), FormatInt(Unix(startedAt));
    var v := MaxAgeCookieValue(m, startedAt);
    FormatIntAlphabet(m, '.');
    DotSplits(age, start);
    assert v[..|age|] == age;
    assert v[|age| + 1..] == start;
    ParseFormat(Unix(startedAt));
    TenDigits();
    FormatNatLength(m, 10);
  }

  /** `time.Duration(maxAge) * time.Second` stays inside int64 for every accepted max_age. */
  lemma MaxAgeProductFits(raw: string)
    requires ParseMaxAge(raw).Requested?
    ensures ParseMaxAge(raw).seconds * SECOND <= INT64_MAX
  {
    var m := ParseMaxAge(raw).seconds;
    assert m * SECOND <= MAX_AGE_MAX_SECONDS * SECOND;
  }

  // ----- the callback -----

  datatype AuthTimeCheck = Satisfied | AuthTimeMissing | AuthTimeStale

  function CheckAuthTime(authTime: Option<Time>, maxAge: nat, startedAt: int): AuthTimeCheck {
    if authTime.None? then AuthTimeMissing
    else if authTime.value < startedAt * SECOND - maxAge * SECOND - AUTH_TIME_SKEW then AuthTimeStale
    else Satisfied
  }

  /** verifyRequestedMaxAge for a callback with at most one marker cookie. */
  predicate MaxAgeVerified(marker: Option<string>, authTime: Option<Time>) {
    if marker.None? || marker.value == "" then true
    else
      match ParseMaxAgeCookie(marker.value)
      case None => false
      case Some(m) => CheckAuthTime(authTime, m.maxAge, m.startedAt).Satisfied?
  }

  /** extractAuthTime after the numeric cast: a positive whole number of seconds, or unknown. */
  function ExtractAuthTime(claim: int): Option<Time> {
    if claim <= 0 then None else Some(claim * SECOND)
  }

  /** What handleLogin does with the parameter: 400, or the marker it leaves for the callback. */
  function LoginMarker(raw: string, now: Time): Option<Option<string>> {
    match ParseMaxAge(raw)
    case Malformed => None
    case Absent => Some(None)
    case Requested(m) => Some(Some(MaxAgeCookieValue(m, now)))
  }

  /** RecentlyAuthenticated on the stored unix seconds. */
  predicate RecentlyAuthenticated(aut: int, window: Duration, now: Time) {
    match TimeOrZero(aut)
    case None => false
    case Some(at) => window > 0 && -AUTH_TIME_SKEW <= now - at <= window
  }

  /**
   End to end. A login with max_age m started at `start` admits exactly the callbacks whose verified
   auth_time is known and at least start - m - 30 s; the session then stores that auth_time.
   */
  lemma StepUpAdmitsExactly(raw: string, start: Time, claim: int)
    requires 0 < Unix(start) <= INT64_MAX && ParseMaxAge(raw).Requested?
    ensures var m := ParseMaxAge(raw).seconds;
            var aut := UnixOrZero(ExtractAuthTime(claim));
            && aut == (if claim > 0 then claim else 0)
            && LoginMarker(raw, start).Some?
            && (MaxAgeVerified(LoginMarker(raw, start).value, ExtractAuthTime(claim)) <==>
                  aut > 0 && aut >= Unix(start) - m - 30)
  {
    MarkerRoundTrip(raw, start);
    var m := ParseMaxAge(raw).seconds;
    assert Unix(start) * SECOND - m * SECOND - AUTH_TIME_SKEW == (Unix(start) - m - 30) * SECOND;
  }

  /** With max_age=0, an admitted step-up whose auth_time is not beyond the skew opens the write door for the window. */
  lemma ForcedStepUpOpensTheDoor(start: Time, claim: int, window: Duration, now: Time)
    requires 0 < Unix(start) <= INT64_MAX && window > 0
    requires MaxAgeVerified(LoginMarker("0", start).value, ExtractAuthTime(claim))
    requires claim * SECOND <= now + AUTH_TIME_SKEW
    requires now <= Unix(start) * SECOND + window - AUTH_TIME_SKEW
    ensures RecentlyAuthenticated(UnixOrZero(ExtractAuthTime(claim)), window, now)
  {
    assert NatValue("0") == 10 * NatValue("0"[..0]) + 0;
    StepUpAdmitsExactly("0", start, claim);
  }

  // ----- a refresh never advances auth_time -----

  function MergeRefreshedAuthTime(stored: int, refreshed: int): int {
    if refreshed <= 0 then stored
    else if stored <= 0 || refreshed < stored then refreshed
    else stored
  }

  /** The session's auth_time after a run of refreshes. */
  function MergeAll(stored: int, refreshed: seq<int>): int {
    if |refreshed| == 0 then stored
    else MergeRefreshedAuthTime(MergeAll(stored, refreshed[..|refreshed| - 1]), refreshed[|refreshed| - 1])
  }

  /** `m` is the smallest known (positive) time among `stored` and `refreshed`; `stored` when none is known. */
  ghost predicate IsEarliestKnown(m: int, stored: int, refreshed: seq<int>) {
    && (m == stored || m in refreshed)
    && (stored > 0 ==> 0 < m <= stored)
    && (forall x :: x in refreshed && x > 0 ==> 0 < m <= x)
    && (m <= 0 ==> m == stored)
  }

  lemma {:induction false} MergeAllIsEarliestKnown(stored: int, refreshed: seq<int>)
    ensures IsEarliestKnown(MergeAll(stored, refreshed), stored, refreshed)
  {
    if |refreshed| > 0 {
      var front, last := refreshed[..|refreshed| - 1], refreshed[|refreshed| - 1];
      MergeAllIsEarliestKnown(stored, front);
      assert forall x :: x in refreshed <==> x in front || x == last;
    }
  }

  /** Order and repetition do not matter: only the set of refreshed times does. */
  lemma MergeAllOrderFree(stored: int, xs: seq<int>, ys: seq<int>)
    requires forall x :: x > 0 ==> (x in xs <==> x in ys)
    ensures MergeAll(stored, xs) == MergeAll(stored, ys)
  {
    MergeAllIsEarliestKnown(stored, xs);
    MergeAllIsEarliestKnown(stored, ys);
    var a, b := MergeAll(stored, xs), MergeAll(stored, ys);
    if a > 0 && a in xs { assert a in ys; }
    if b > 0 && b in ys { assert b in xs; }
  }

  /**
   At a fixed instant no run of refreshes opens the write door, exactly when the stored auth_time is
   known and not beyond the skew in the future; an unknown or a far-future one can be filled or lowered
   into the window.
   */
  lemma RefreshesNeverOpenTheDoor(stored: int, window: Duration, now: Time)
    requires window > 0 && now >= 0
    ensures (forall refreshed :: RecentlyAuthenticated(MergeAll(stored, refreshed), window, now) ==>
                                   RecentlyAuthenticated(stored, window, now))
            <==> 0 < stored && stored * SECOND <= now + AUTH_TIME_SKEW
  {
    if 0 < stored && stored * SECOND <= now + AUTH_TIME_SKEW {
      forall refreshed | RecentlyAuthenticated(MergeAll(stored, refreshed), window, now)
        ensures RecentlyAuthenticated(stored, window, now)
      {
        MergeAllIsEarliestKnown(stored, refreshed);
      }
    } else {
      var soon := Unix(now) + 1;
      assert [soon][..0] == [];
      assert MergeAll(stored, [soon]) == MergeRefreshedAuthTime(MergeAll(stored, []), soon);
      assert RecentlyAuthenticated(MergeAll(stored, [soon]), window, now);
      assert !RecentlyAuthenticated(stored, window, now);
    }
  }

  // ----- what the door and the parameter accept, exactly -----

  /** Recent means: known, and at most a window old or 30 s in the future. */
  lemma RecentExactly(aut: int, window: Duration, now: Time)
    ensures RecentlyAuthenticated(aut, window, now) <==>
              aut > 0 && window > 0 && aut * SECOND - 30 * SECOND <= now <= aut * SECOND + window
  {
  }

  /** A window after the stored auth_time the door is closed, whatever refreshes follow. */
  lemma StaleStaysStale(stored: int, refreshed: seq<int>, window: Duration, now: Time)
    requires stored > 0 && now > stored * SECOND + window
    ensures !RecentlyAuthenticated(MergeAll(stored, refreshed), window, now)
  {
    MergeAllIsEarliestKnown(stored, refreshed);
  }

  /** Every whole number of seconds up to 2^31 - 1 can be asked for, and nothing else is taken for a number. */
  lemma MaxAgeExactly(raw: string)
    ensures ParseMaxAge(raw).Absent? <==> raw == ""
    ensures ParseMaxAge(raw).Requested? <==>
              raw != "" && AllDigits(raw) && |raw| <= 10 && NatValue(raw) <= 2_147_483_647
    ensures ParseMaxAge(raw).Requested? ==> ParseMaxAge(raw).seconds == NatValue(raw)
  {
  }

  lemma EveryMaxAgeCanBeAsked(m: nat)
    requires m <= 2_147_483_647
    ensures ParseMaxAge(FormatInt(m)) == Requested(m)
  {
    TenDigits();
    FormatNatLength(m, 10);
  }

  /** A login without max_age asks nothing of auth_time; a malformed max_age or marker is refused. */
  lemma OnlyStepUpsAreChecked(raw: string, now: Time, authTime: Option<Time>, marker: string)
    ensures LoginMarker("", now) == Some(None) && MaxAgeVerified(None, authTime)
    ensures LoginMarker(raw, now).None? <==> ParseMaxAge(raw).Malformed?
    ensures marker != "" && ParseMaxAgeCookie(marker).None? ==> !MaxAgeVerified(Some(marker), authTime)
  {
  }
}
