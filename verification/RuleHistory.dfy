/** When a rule fires, told from the history of its evaluations alone. */
module RuleHistory {
  import opened Basics
  import opened RuleEngine

  type History = seq<Obs>

  /** The state before evaluation i. */
  function StateAt(h: History, i: nat): State
    requires i <= |h|
  {
    if i == 0 then FRESH else Step(StateAt(h, i - 1), h[i - 1]).0
  }

  predicate Fires(h: History, i: nat)
    requires i < |h|
  {
    Step(StateAt(h, i), h[i]).1
  }

  /** Time does not run backwards, and a calendar day has one day of the year. */
  predicate Chronological(h: History) {
    forall i, j :: 0 <= i < j < |h| ==>
      && h[i].at.now <= h[j].at.now
      && h[i].at.day <= h[j].at.day
      && (h[i].at.day == h[j].at.day ==> h[i].at.yearDay == h[j].at.yearDay)
  }

  /** The daily limit is switched on in every evaluation. */
  predicate AlwaysLimited(h: History) {
    forall i :: 0 <= i < |h| ==> h[i].maxPerDay > 0
  }

  // ─── The declarative reading ─────────────────────────────────────────────────

  /** The condition held at every evaluation from s to i, and the rule did not fire from s on. */
  predicate Streak(h: History, s: nat, i: nat)
    requires s <= i < |h|
  {
    && (forall k :: s <= k <= i ==> h[k].met)
    && (forall k :: s <= k < i ==> !Fires(h, k))
  }

  predicate HeldFrom(h: History, s: nat, i: nat)
    requires s <= i < |h|
  {
    Streak(h, s, i) && h[i].at.now - h[s].at.now >= h[i].durationSeconds * SECOND
  }

  /** The condition has held for the required duration since the last firing. */
  predicate HeldLongEnough(h: History, i: nat)
    requires i < |h|
  {
    exists s :: 0 <= s <= i && HeldFrom(h, s, i)
  }

  /** Every earlier firing is at least a cooldown ago. */
  predicate CooledDown(h: History, i: nat)
    requires i < |h|
  {
    forall k :: 0 <= k < i && Fires(h, k) ==> h[i].at.now - h[k].at.now >= h[i].cooldownSeconds * SECOND
  }

  /** Evaluation i gets as far as the daily limit. */
  predicate Reaches(h: History, i: nat)
    requires i < |h|
  {
    HeldLongEnough(h, i) && CooledDown(h, i)
  }

  /** The day of the year of the last evaluation that checked a daily limit; 0 before any. */
  function CheckedDay(h: History, i: nat): int
    requires i <= |h|
  {
    if i == 0 then 0
    else if Reaches(h, i - 1) && h[i - 1].maxPerDay > 0 then h[i - 1].at.yearDay
    else CheckedDay(h, i - 1)
  }

  /** Firings before i since the daily limit was last checked on another day of the year. */
  function RunCount(h: History, i: nat, yearDay: int): nat
    requires i <= |h|
  {
    if i == 0 then 0
    else if !Reaches(h, i - 1) then RunCount(h, i - 1, yearDay)
    else if CheckedDay(h, i) != yearDay then 0
    else RunCount(h, i - 1, yearDay) + (if Fires(h, i - 1) then 1 else 0)
  }

  /** Firings before i on the calendar day. */
  function DayCount(h: History, i: nat, day: int): nat
    requires i <= |h|
  {
    if i == 0 then 0
    else DayCount(h, i - 1, day) + (if h[i - 1].at.day == day && Fires(h, i - 1) then 1 else 0)
  }

  // ─── What the state remembers ────────────────────────────────────────────────

  /** Where the current streak began: s is as early as it can be. */
  predicate StreakBegins(h: History, s: nat, i: nat)
    requires s < i <= |h|
  {
    && (forall k :: s <= k < i ==> h[k].met && !Fires(h, k))
    && (s > 0 ==> !h[s - 1].met || Fires(h, s - 1))
  }

  /** The start of the current streak, if there is one, was at `since`. */
  predicate SinceIs(h: History, i: nat, since: Option<int>)
    requires i <= |h|
  {
    match since
    case None => i > 0 ==> !h[i - 1].met || Fires(h, i - 1)
    case Some(t) => exists s :: 0 <= s < i && StreakBegins(h, s, i) && h[s].at.now == t
  }

  predicate Quiet(h: History, from: nat, to: nat)
    requires to <= |h|
  {
    forall k :: from <= k < to ==> !Fires(h, k)
  }

  /** f is the last firing before i. */
  predicate LastFiring(h: History, f: nat, i: nat)
    requires f < i <= |h|
  {
    Fires(h, f) && Quiet(h, f + 1, i)
  }

  predicate LastFiredInv(h: History, i: nat)
    requires i <= |h|
  {
    match StateAt(h, i).lastFired
    case None => Quiet(h, 0, i)
    case Some(t) => exists f :: 0 <= f < i && LastFiring(h, f, i) && h[f].at.now == t
  }

  lemma StepRemembersSince(st: State, o: Obs)
    ensures Step(st, o).0.since == if !o.met || Step(st, o).1 then None
                                   else if st.since.None? then Some(o.at.now) else st.since
  {
  }

  lemma StreakExtends(h: History, s: nat, i: nat)
    requires s < i - 1 < |h| && StreakBegins(h, s, i - 1) && h[i - 1].met && !Fires(h, i - 1)
    ensures StreakBegins(h, s, i)
  {
  }

  lemma SinceMoves(h: History, i: nat, since: Option<int>)
    requires 0 < i <= |h| && SinceIs(h, i - 1, since)
    ensures SinceIs(h, i, if !h[i - 1].met || Fires(h, i - 1) then None
                          else if since.None? then Some(h[i - 1].at.now) else since)
  {
    if h[i - 1].met && !Fires(h, i - 1) {
      if since.None? {
        assert StreakBegins(h, i - 1, i);
      } else {
        var s :| 0 <= s < i - 1 && StreakBegins(h, s, i - 1) && h[s].at.now == since.value;
        StreakExtends(h, s, i);
      }
    }
  }

  lemma {:induction false} StateRemembersSince(h: History, i: nat)
    requires i <= |h|
    ensures SinceIs(h, i, StateAt(h, i).since)
  {
    if i > 0 {
      StateRemembersSince(h, i - 1);
      var before := StateAt(h, i - 1);
      SinceMoves(h, i, before.since);
      StepRemembersSince(before, h[i - 1]);
    }
  }

  lemma StepRemembersFiring(st: State, o: Obs)
    ensures Step(st, o).0.lastFired == if Step(st, o).1 then Some(o.at.now) else st.lastFired
  {
  }

  lemma QuietExtends(h: History, from: nat, i: nat)
    requires 0 < i <= |h| && Quiet(h, from, i - 1) && !Fires(h, i - 1)
    ensures Quiet(h, from, i)
  {
  }

  lemma {:induction false} StateRemembersFiring(h: History, i: nat)
    requires i <= |h|
    ensures LastFiredInv(h, i)
  {
    if i > 0 {
      StateRemembersFiring(h, i - 1);
      var before := StateAt(h, i - 1);
      StepRemembersFiring(before, h[i - 1]);
      if Fires(h, i - 1) {
        assert LastFiring(h, i - 1, i);
      } else if before.lastFired.Some? {
        var f :| 0 <= f < i - 1 && LastFiring(h, f, i - 1) && h[f].at.now == before.lastFired.value;
        QuietExtends(h, f + 1, i);
        assert LastFiring(h, f, i);
      } else {
        QuietExtends(h, 0, i);
      }
    }
  }

  /** The duration test of Evaluate. */
  predicate DurationMet(st: State, o: Obs) {
    o.met && o.at.now - (if st.since.None? then o.at.now else st.since.value) >= o.durationSeconds * SECOND
  }

  predicate CooldownOver(st: State, o: Obs) {
    st.lastFired.None? || o.at.now - st.lastFired.value >= o.cooldownSeconds * SECOND
  }

  lemma Earlier(h: History, i: nat, j: nat)
    requires Chronological(h) && i <= j < |h|
    ensures h[i].at.now <= h[j].at.now
  {
  }

  lemma StreakStartsLate(h: History, s0: nat, s: nat, i: nat)
    requires s0 < i < |h| && s <= i && StreakBegins(h, s0, i) && Streak(h, s, i)
    ensures s0 <= s
  {
  }

  lemma FreshStreak(h: History, s: nat, i: nat)
    requires 0 < i < |h| && s <= i && Streak(h, s, i)
    requires !h[i - 1].met || Fires(h, i - 1)
    ensures s == i
  {
  }

  lemma StreakGoesOn(h: History, s: nat, i: nat)
    requires s < i < |h| && StreakBegins(h, s, i) && h[i].met
    ensures Streak(h, s, i)
  {
  }

  lemma DurationGivesHeld(h: History, i: nat)
    requires i < |h| && SinceIs(h, i, StateAt(h, i).since) && DurationMet(StateAt(h, i), h[i])
    ensures HeldLongEnough(h, i)
  {
    var since := StateAt(h, i).since;
    assert h[i].met;
    if since.None? {
      assert Streak(h, i, i);
      assert HeldFrom(h, i, i);
    } else {
      var s0 :| 0 <= s0 < i && StreakBegins(h, s0, i) && h[s0].at.now == since.value;
      StreakGoesOn(h, s0, i);
      assert HeldFrom(h, s0, i);
    }
  }

  lemma HeldGivesDuration(h: History, i: nat, s: nat)
    requires Chronological(h) && s <= i < |h| && SinceIs(h, i, StateAt(h, i).since) && HeldFrom(h, s, i)
    ensures DurationMet(StateAt(h, i), h[i])
  {
    assert h[i].met;
    if StateAt(h, i).since.None? {
      if i > 0 {
        FreshStreak(h, s, i);
      }
    } else {
      var s0 :| 0 <= s0 < i && StreakBegins(h, s0, i) && h[s0].at.now == StateAt(h, i).since.value;
      StreakStartsLate(h, s0, s, i);
      Earlier(h, s0, s);
    }
  }

  lemma DurationIsHeld(h: History, i: nat)
    requires Chronological(h) && i < |h|
    ensures DurationMet(StateAt(h, i), h[i]) <==> HeldLongEnough(h, i)
  {
    StateRemembersSince(h, i);
    if DurationMet(StateAt(h, i), h[i]) {
      DurationGivesHeld(h, i);
    }
    if HeldLongEnough(h, i) {
      var s :| 0 <= s <= i && HeldFrom(h, s, i);
      HeldGivesDuration(h, i, s);
    }
  }

  lemma BeforeLastFiring(h: History, f: nat, k: nat, i: nat)
    requires f < i <= |h| && LastFiring(h, f, i) && k < i && Fires(h, k)
    ensures k <= f
  {
  }

  lemma CooldownIsCooled(h: History, i: nat)
    requires Chronological(h) && i < |h|
    ensures CooldownOver(StateAt(h, i), h[i]) <==> CooledDown(h, i)
  {
    StateRemembersFiring(h, i);
    var last := StateAt(h, i).lastFired;
    if last.Some? {
      var f :| 0 <= f < i && LastFiring(h, f, i) && h[f].at.now == last.value;
      if CooldownOver(StateAt(h, i), h[i]) {
        forall k | 0 <= k < i && Fires(h, k)
          ensures h[i].at.now - h[k].at.now >= h[i].cooldownSeconds * SECOND
        {
          BeforeLastFiring(h, f, k, i);
          Earlier(h, k, f);
        }
      }
    }
  }

  lemma StepByTests(st: State, o: Obs)
    ensures Step(st, o).1 ==> DurationMet(st, o) && CooldownOver(st, o)
    ensures o.maxPerDay <= 0 ==> (Step(st, o).1 <==> DurationMet(st, o) && CooldownOver(st, o))
    ensures o.maxPerDay > 0 ==>
              (Step(st, o).1 <==> DurationMet(st, o) && CooldownOver(st, o)
                                  && (if st.lastFiredDay == o.at.yearDay then st.firedToday else 0) < o.maxPerDay)
    ensures !(DurationMet(st, o) && CooldownOver(st, o)) ==>
              Step(st, o).0.firedToday == st.firedToday && Step(st, o).0.lastFiredDay == st.lastFiredDay
    ensures DurationMet(st, o) && CooldownOver(st, o) && o.maxPerDay > 0 ==>
              && Step(st, o).0.lastFiredDay == o.at.yearDay
              && Step(st, o).0.firedToday
                 == (if st.lastFiredDay == o.at.yearDay then st.firedToday else 0) + (if Step(st, o).1 then 1 else 0)
    ensures DurationMet(st, o) && CooldownOver(st, o) && o.maxPerDay <= 0 ==>
              Step(st, o).0.lastFiredDay == st.lastFiredDay && Step(st, o).0.firedToday == st.firedToday + 1
  {
  }

  lemma ReachesByTests(h: History, i: nat)
    requires Chronological(h) && i < |h|
    ensures TestsAgree(h, i)
  {
    DurationIsHeld(h, i);
    CooldownIsCooled(h, i);
  }

  /** How one evaluation moves the stored day and counter. */
  lemma CounterMoves(st: State, o: Obs, reaches: bool, yearDay: int)
    requires reaches <==> DurationMet(st, o) && CooldownOver(st, o)
    ensures var (st', fires) := Step(st, o);
            && st'.lastFiredDay == (if reaches && o.maxPerDay > 0 then o.at.yearDay else st.lastFiredDay)
            && (if st'.lastFiredDay == yearDay then st'.firedToday else 0)
               == if !reaches then (if st.lastFiredDay == yearDay then st.firedToday else 0)
                  else if st'.lastFiredDay != yearDay then 0
                  else (if st.lastFiredDay == yearDay then st.firedToday else 0) + (if fires then 1 else 0)
  {
    StepByTests(st, o);
  }

  /** What the history says of evaluation k is what its tests on the state say. */
  predicate TestsAgree(h: History, k: nat)
    requires k < |h|
  {
    Reaches(h, k) <==> DurationMet(StateAt(h, k), h[k]) && CooldownOver(StateAt(h, k), h[k])
  }

  lemma CheckedDayMoves(h: History, i: nat, st: State)
    requires 0 < i <= |h| && TestsAgree(h, i - 1) && StateAt(h, i - 1) == st
    requires CheckedDay(h, i - 1) == st.lastFiredDay
    ensures CheckedDay(h, i) == Step(st, h[i - 1]).0.lastFiredDay
  {
    CounterMoves(st, h[i - 1], Reaches(h, i - 1), 0);
  }

  lemma {:induction false} CheckedDayIsStored(h: History, i: nat)
    requires i <= |h| && forall k :: 0 <= k < i ==> TestsAgree(h, k)
    ensures CheckedDay(h, i) == StateAt(h, i).lastFiredDay
  {
    if i > 0 {
      CheckedDayIsStored(h, i - 1);
      assert TestsAgree(h, i - 1);
      CheckedDayMoves(h, i, StateAt(h, i - 1));
    }
  }

  lemma RunCountMoves(h: History, i: nat, st: State, yearDay: int)
    requires 0 < i <= |h| && TestsAgree(h, i - 1) && StateAt(h, i - 1) == st
    requires CheckedDay(h, i) == Step(st, h[i - 1]).0.lastFiredDay
    requires RunCount(h, i - 1, yearDay) == if st.lastFiredDay == yearDay then st.firedToday else 0
    ensures var st' := Step(st, h[i - 1]).0;
            RunCount(h, i, yearDay) == if st'.lastFiredDay == yearDay then st'.firedToday else 0
  {
    CounterMoves(st, h[i - 1], Reaches(h, i - 1), yearDay);
  }

  /** The stored counter is the count of the current run, and every other day of the year
      would start from zero. */
  lemma {:induction false} CounterIsRunCount(h: History, i: nat, yearDay: int)
    requires Chronological(h) && i <= |h|
    ensures RunCount(h, i, yearDay) == if StateAt(h, i).lastFiredDay == yearDay then StateAt(h, i).firedToday else 0
  {
    if i > 0 {
      CounterIsRunCount(h, i - 1, yearDay);
      forall k | 0 <= k < i ensures TestsAgree(h, k) {
        ReachesByTests(h, k);
      }
      CheckedDayIsStored(h, i);
      RunCountMoves(h, i, StateAt(h, i - 1), yearDay);
    }
  }

  // ─── Main results ────────────────────────────────────────────────────────────

  /** The condition has held for the duration since the last firing, the cooldown has passed, and
      the daily limit, if there is one, exceeds the firings counted in the current run of equal
      days of the year. */
  predicate Due(h: History, i: nat)
    requires i < |h|
  {
    && HeldLongEnough(h, i) && CooledDown(h, i)
    && (h[i].maxPerDay > 0 ==> RunCount(h, i, h[i].at.yearDay) < h[i].maxPerDay)
  }

  /** A rule fires at an evaluation exactly when the condition has held for the duration since
      the last firing, the cooldown has passed, and the daily limit, if there is one, exceeds
      the firings counted in the current run of equal days of the year. */
  lemma FiresIffHistorySaysSo(h: History, i: nat)
    requires Chronological(h) && i < |h|
    ensures Fires(h, i) <==> Due(h, i)
  {
    ReachesByTests(h, i);
    StepByTests(StateAt(h, i), h[i]);
    if h[i].maxPerDay > 0 {
      CounterIsRunCount(h, i, h[i].at.yearDay);
    }
  }

  /** The day of the year of the last evaluation before i, on another date than `day`, that
      reached the daily limit. */
  function LastForeignDay(h: History, i: nat, day: int): Option<int>
    requires i <= |h|
  {
    if i == 0 then None
    else if Reaches(h, i - 1) && h[i - 1].at.day != day then Some(h[i - 1].at.yearDay)
    else LastForeignDay(h, i - 1, day)
  }

  /** `day` and `yearDay` belong together, and nothing before i is later. */
  predicate IsDayAt(h: History, i: nat, day: int, yearDay: int)
    requires i <= |h|
  {
    forall k :: 0 <= k < i ==> h[k].at.day <= day && (h[k].at.day == day ==> h[k].at.yearDay == yearDay)
  }

  /** An evaluation that reaches the limit leaves a firing in the count of its day of the year:
      its own, or those that held it back. */
  lemma ReachingLeavesCount(h: History, i: nat)
    requires Chronological(h) && AlwaysLimited(h) && 0 < i <= |h| && Reaches(h, i - 1)
    ensures RunCount(h, i, h[i - 1].at.yearDay) > 0
  {
    FiresIffHistorySaysSo(h, i - 1);
  }

  /** The counted run is the calendar day, exactly when the last evaluation on another date that
      reached the limit was not on the same day of the year; otherwise it counts too many. */
  lemma {:induction false} RunCountIsDayCount(h: History, i: nat, day: int, yearDay: int)
    requires Chronological(h) && AlwaysLimited(h) && i <= |h| && IsDayAt(h, i, day, yearDay)
    ensures DayCount(h, i, day) <= RunCount(h, i, yearDay)
    ensures RunCount(h, i, yearDay) == DayCount(h, i, day) <==> LastForeignDay(h, i, day) != Some(yearDay)
  {
    if i > 0 {
      RunCountIsDayCount(h, i - 1, day, yearDay);
      ReachesByTests(h, i - 1);
      StepByTests(StateAt(h, i - 1), h[i - 1]);
      if h[i - 1].at.day != day {
        NoFiringBeforeDay(h, i, day);
        if Reaches(h, i - 1) {
          ReachingLeavesCount(h, i);
        }
      }
    }
  }

  lemma {:induction false} NoFiringBeforeDay(h: History, i: nat, day: int)
    requires i <= |h| && Chronological(h)
    requires i > 0 ==> h[i - 1].at.day < day
    ensures DayCount(h, i, day) == 0
  {
    if i > 0 {
      if i > 1 {
        assert h[i - 2].at.day <= h[i - 1].at.day;
      }
      NoFiringBeforeDay(h, i - 1, day);
    }
  }

  /** The daily limit by date: the firings that count against evaluation i are those of its
      calendar day exactly when the last evaluation on another date that reached the limit was
      not on the same day of the year; and then the limit is on the firings of that day. */
  lemma DailyLimitByDate(h: History, i: nat)
    requires Chronological(h) && AlwaysLimited(h) && i < |h|
    ensures var at := h[i].at;
            && (RunCount(h, i, at.yearDay) == DayCount(h, i, at.day) <==> LastForeignDay(h, i, at.day) != Some(at.yearDay))
            && (LastForeignDay(h, i, at.day) != Some(at.yearDay) ==>
                  (Fires(h, i) <==> HeldLongEnough(h, i) && CooledDown(h, i) && DayCount(h, i, at.day) < h[i].maxPerDay))
  {
    FiresIffHistorySaysSo(h, i);
    RunCountIsDayCount(h, i, h[i].at.day, h[i].at.yearDay);
  }

  /** A year later the old count still stands: the second evaluation has no firing on its own
      day and is refused all the same. */
  lemma YearWrapSuppresses()
    ensures var h := [Obs(Clock(0, 100, 100), true, 0, 0, 1), Obs(Clock(365 * 86400 * SECOND, 465, 100), true, 0, 0, 1)];
            && Chronological(h) && AlwaysLimited(h)
            && HeldLongEnough(h, 1) && CooledDown(h, 1) && DayCount(h, 1, 465) == 0
            && LastForeignDay(h, 1, 465) == Some(100) && !Fires(h, 1)
  {
    var h := [Obs(Clock(0, 100, 100), true, 0, 0, 1), Obs(Clock(365 * 86400 * SECOND, 465, 100), true, 0, 0, 1)];
    assert StateAt(h, 0) == FRESH;
    assert StateAt(h, 1) == State(None, Some(0), 1, 100);
    assert HeldFrom(h, 1, 1);
    assert DayCount(h, 0, 465) == 0;
    assert HeldFrom(h, 0, 0);
  }

  /** Year wrap or not, no calendar day sees more firings than the limit. */
  lemma {:induction false} DailyLimitHolds(h: History, n: nat, day: int, limit: nat)
    requires Chronological(h) && n <= |h| && limit > 0
    requires forall k :: 0 <= k < |h| ==> h[k].maxPerDay == limit
    ensures DayCount(h, n, day) <= limit
  {
    if n > 0 {
      DailyLimitHolds(h, n - 1, day, limit);
      if h[n - 1].at.day == day && Fires(h, n - 1) {
        FiresIffHistorySaysSo(h, n - 1);
        RunCountIsDayCount(h, n - 1, day, h[n - 1].at.yearDay);
      }
    }
  }

  /** Two firings are at least a cooldown and a condition duration apart. */
  lemma FiringsAreApart(h: History, i: nat, j: nat)
    requires Chronological(h) && i < j < |h| && Fires(h, i) && Fires(h, j)
    ensures h[j].at.now - h[i].at.now >= h[j].cooldownSeconds * SECOND
    ensures h[j].at.now - h[i].at.now >= h[j].durationSeconds * SECOND
  {
    ReachesByTests(h, j);
    StepByTests(StateAt(h, j), h[j]);
    var s :| 0 <= s <= j && HeldFrom(h, s, j);
    assert s > i;
    if s < j {
      assert h[i].at.now <= h[s].at.now;
    }
  }

  /** Firing rate: n + 1 firings of a rule take at least n times the larger of its two delays. */
  lemma {:induction false} FiringRate(h: History, f: seq<nat>, gap: nat)
    requires Chronological(h) && |f| > 0
    requires forall k :: 0 <= k < |f| ==> f[k] < |h| && Fires(h, f[k])
    requires forall k :: 0 <= k < |f| - 1 ==> f[k] < f[k + 1]
    requires forall k :: 0 <= k < |h| ==> gap <= h[k].cooldownSeconds || gap <= h[k].durationSeconds
    ensures h[f[|f| - 1]].at.now - h[f[0]].at.now >= (|f| - 1) * (gap * SECOND)
    decreases |f|
  {
    if |f| > 1 {
      var n := |f| - 1;
      assert f[..n][|f[..n]| - 1] == f[n - 1];
      FiringRate(h, f[..n], gap);
      FiringsAreApart(h, f[n - 1], f[n]);
      assert (|f| - 1) * (gap * SECOND) == (n - 1) * (gap * SECOND) + gap * SECOND;
    }
  }

  // ─── From the engine's runs to a rule's history ──────────────────────────────

  datatype Event =
    | Synced(rules: seq<RuleDefinition>)
    | Evaluated(m: Metrics, at: Clock)

  /** What one pass observes of the rule. */
  function PassOf(rules: seq<RuleDefinition>, m: Metrics, at: Clock, id: string): History {
    if rules == [] then []
    else
      var rest := PassOf(rules[1..], m, at, id);
      if rules[0].ruleID != id then rest
      else match Observe(rules[0], m, at)
           case None => rest
           case Some(o) => [o] + rest
  }

  /** An evaluation enters a rule's history exactly when the rule is enabled and its metric has a
      value; what enters is the clock, whether the value compares as the rule says, and the
      rule's own parameters. */
  lemma WhatEntersHistory(r: RuleDefinition, m: Metrics, at: Clock)
    ensures var h, v := PassOf([r], m, at, r.ruleID), MetricValue(m, r.metric);
            && (h == [] <==> !r.enabled || v.None?)
            && (h != [] ==>
                  && |h| == 1 && h[0].at == at && (h[0].met <==> EvalOp(v.value, r.op, r.threshold))
                  && h[0].durationSeconds == r.durationSeconds && h[0].cooldownSeconds == r.cooldownSeconds
                  && h[0].maxPerDay == r.maxPerDay)
    ensures forall id :: id != r.ruleID ==> PassOf([r], m, at, id) == []
  {
    assert [r][1..] == [];
    assert PassOf([], m, at, r.ruleID) == [];
  }

  /** What a pass observes of a rule is what its definitions with that name observe, in order. */
  lemma {:induction false} PassConcat(a: seq<RuleDefinition>, b: seq<RuleDefinition>, m: Metrics, at: Clock, id: string)
    ensures PassOf(a + b, m, at, id) == PassOf(a, m, at, id) + PassOf(b, m, at, id)
    decreases |a|
  {
    if a == [] {
      assert a + b == b;
    } else {
      assert (a + b)[0] == a[0] && (a + b)[1..] == a[1..] + b;
      PassConcat(a[1..], b, m, at, id);
    }
  }

  /** A rule without delays and limits fires at its first evaluation exactly when it is enabled,
      its metric has a value, and the value compares as the rule says. */
  lemma PlainRuleFires(r: RuleDefinition, m: Metrics, at: Clock)
    requires r.durationSeconds <= 0 && r.maxPerDay <= 0
    ensures EvalRules(map[], [r], m, at).1
            == if r.enabled && MetricValue(m, r.metric).Some? && EvalOp(MetricValue(m, r.metric).value, r.op, r.threshold)
               then [Fired(r.ruleID, at.now)] else []
  {
    assert [r][1..] == [];
  }

  /** The rule's evaluations over a run of the engine. */
  function HistoryOf(rules: seq<RuleDefinition>, run: seq<Event>, id: string): History
    decreases |run|
  {
    if run == [] then []
    else match run[0]
         case Synced(newRules) => HistoryOf(newRules, run[1..], id)
         case Evaluated(m, at) => PassOf(rules, m, at, id) + HistoryOf(rules, run[1..], id)
  }

  /** The engine's states after a run, and everything that fired. */
  function RunEngine(states: map<string, State>, rules: seq<RuleDefinition>, run: seq<Event>)
      : (map<string, State>, seq<Fired>)
    decreases |run|
  {
    if run == [] then (states, [])
    else match run[0]
         case Synced(newRules) => RunEngine(states, newRules, run[1..])
         case Evaluated(m, at) =>
           var (states1, fired1) := EvalRules(states, rules, m, at);
           var (states2, fired2) := RunEngine(states1, rules, run[1..]);
           (states2, fired1 + fired2)
  }

  /** A rule's state after further evaluations, and the times at which it fired. */
  function Replay(st: State, h: History): (State, seq<int>)
    decreases |h|
  {
    if h == [] then (st, [])
    else
      var (st1, fires) := Step(st, h[0]);
      var (st2, times) := Replay(st1, h[1..]);
      (st2, (if fires then [h[0].at.now] else []) + times)
  }

  function TimesOf(fired: seq<Fired>, id: string): seq<int> {
    if fired == [] then []
    else (if fired[0].ruleID == id then [fired[0].now] else []) + TimesOf(fired[1..], id)
  }

  lemma {:induction false} TimesConcat(a: seq<Fired>, b: seq<Fired>, id: string)
    ensures TimesOf(a + b, id) == TimesOf(a, id) + TimesOf(b, id)
  {
    if a == [] {
      assert a + b == b;
    } else {
      assert (a + b)[0] == a[0] && (a + b)[1..] == a[1..] + b;
      TimesConcat(a[1..], b, id);
      var first := if a[0].ruleID == id then [a[0].now] else [];
      var middle, last := TimesOf(a[1..], id), TimesOf(b, id);
      assert TimesOf(a + b, id) == first + (middle + last);
      assert first + (middle + last) == first + middle + last;
    }
  }

  lemma TimesOfOne(rid: string, now: int, id: string)
    ensures TimesOf([Fired(rid, now)], id) == if rid == id then [now] else []
  {
    assert [Fired(rid, now)][1..] == [];
  }

  lemma {:induction false} ReplayConcat(st: State, h1: History, h2: History)
    ensures Replay(st, h1 + h2)
            == (Replay(Replay(st, h1).0, h2).0, Replay(st, h1).1 + Replay(Replay(st, h1).0, h2).1)
    decreases |h1|
  {
    if h1 == [] {
      assert h1 + h2 == h2;
      assert [] + Replay(st, h2).1 == Replay(st, h2).1;
    } else {
      assert (h1 + h2)[0] == h1[0] && (h1 + h2)[1..] == h1[1..] + h2;
      var (st1, fires) := Step(st, h1[0]);
      var first := if fires then [h1[0].at.now] else [];
      var times1, times2 := Replay(st1, h1[1..]).1, Replay(Replay(st1, h1[1..]).0, h2).1;
      ReplayConcat(st1, h1[1..], h2);
      assert first + (times1 + times2) == first + times1 + times2;
    }
  }

  lemma {:induction false} PassIsReplay(states: map<string, State>, rules: seq<RuleDefinition>, m: Metrics, at: Clock,
                                        id: string)
    ensures var (states', fired) := EvalRules(states, rules, m, at);
            (StateOf(states', id), TimesOf(fired, id)) == Replay(StateOf(states, id), PassOf(rules, m, at, id))
    decreases |rules|
  {
    if rules != [] {
      match Observe(rules[0], m, at) {
        case None => PassIsReplay(states, rules[1..], m, at, id);
        case Some(o) =>
          var rid := rules[0].ruleID;
          var (st, fires) := Step(StateOf(states, rid), o);
          var next := states[rid := st];
          PassIsReplay(next, rules[1..], m, at, id);
          FirstTurn(states, rules, m, at, id, o);
      }
    }
  }

  /** The first rule's turn, given the rest of the pass. */
  lemma FirstTurn(states: map<string, State>, rules: seq<RuleDefinition>, m: Metrics, at: Clock, id: string, o: Obs)
    requires rules != [] && Observe(rules[0], m, at) == Some(o)
    requires var next := states[rules[0].ruleID := Step(StateOf(states, rules[0].ruleID), o).0];
             var (states', fired) := EvalRules(next, rules[1..], m, at);
             (StateOf(states', id), TimesOf(fired, id)) == Replay(StateOf(next, id), PassOf(rules[1..], m, at, id))
    ensures var (states', fired) := EvalRules(states, rules, m, at);
            (StateOf(states', id), TimesOf(fired, id)) == Replay(StateOf(states, id), PassOf(rules, m, at, id))
  {
    var rid := rules[0].ruleID;
    var (st, fires) := Step(StateOf(states, rid), o);
    var fired := EvalRules(states[rid := st], rules[1..], m, at).1;
    var rest := PassOf(rules[1..], m, at, id);
    TimesOfOne(rid, at.now, id);
    if fires {
      TimesConcat([Fired(rid, at.now)], fired, id);
    } else {
      assert [] + fired == fired;
    }
    if rid == id {
      assert PassOf(rules, m, at, id) == [o] + rest;
      assert ([o] + rest)[0] == o && ([o] + rest)[1..] == rest;
      assert o.at == at;
      assert [] + Replay(st, rest).1 == Replay(st, rest).1;
    } else {
      assert [] + TimesOf(fired, id) == TimesOf(fired, id);
    }
  }

  /** Refinement: over any run of evaluations and rule replacements, what the engine remembers
      of a rule and when it fired it depend only on the rule's own history, which Sync leaves
      alone. */
  lemma {:induction false} EngineRefinesHistory(states: map<string, State>, rules: seq<RuleDefinition>, run: seq<Event>,
                                                id: string)
    ensures var (states', fired) := RunEngine(states, rules, run);
            (StateOf(states', id), TimesOf(fired, id)) == Replay(StateOf(states, id), HistoryOf(rules, run, id))
    decreases |run|
  {
    if run != [] {
      match run[0] {
        case Synced(newRules) => EngineRefinesHistory(states, newRules, run[1..], id);
        case Evaluated(m, at) =>
          var (states1, fired1) := EvalRules(states, rules, m, at);
          PassIsReplay(states, rules, m, at, id);
          EngineRefinesHistory(states1, rules, run[1..], id);
          TimesConcat(fired1, RunEngine(states1, rules, run[1..]).1, id);
          ReplayConcat(StateOf(states, id), PassOf(rules, m, at, id), HistoryOf(rules, run[1..], id));
      }
    }
  }

  /** The times of the evaluations at which the rule fires, from evaluation i on. */
  function FiringTimes(h: History, i: nat): seq<int>
    requires i <= |h|
    decreases |h| - i
  {
    if i == |h| then [] else (if Fires(h, i) then [h[i].at.now] else []) + FiringTimes(h, i + 1)
  }

  lemma {:induction false} ReplayIsFiringTimes(h: History, i: nat)
    requires i <= |h|
    ensures Replay(StateAt(h, i), h[i..]) == (StateAt(h, |h|), FiringTimes(h, i))
    decreases |h| - i
  {
    if i < |h| {
      assert h[i..][0] == h[i] && h[i..][1..] == h[i + 1..];
      ReplayIsFiringTimes(h, i + 1);
    }
  }

  /** From an engine without state, the rule fires exactly at the evaluations of its history
      that Fires names. */
  lemma EngineFiresByHistory(rules: seq<RuleDefinition>, run: seq<Event>, id: string)
    ensures TimesOf(RunEngine(map[], rules, run).1, id) == FiringTimes(HistoryOf(rules, run, id), 0)
  {
    var h := HistoryOf(rules, run, id);
    EngineRefinesHistory(map[], rules, run, id);
    ReplayIsFiringTimes(h, 0);
    assert h[0..] == h;
  }

  // ─── Runs whose clock does not run backwards ─────────────────────────────────

  predicate InOrder(a: Clock, b: Clock) {
    a.now <= b.now && a.day <= b.day && (a.day == b.day ==> a.yearDay == b.yearDay)
  }

  predicate ChronologicalRun(run: seq<Event>) {
    forall i, j :: 0 <= i < j < |run| && run[i].Evaluated? && run[j].Evaluated? ==> InOrder(run[i].at, run[j].at)
  }

  lemma {:induction false} PassHasOneClock(rules: seq<RuleDefinition>, m: Metrics, at: Clock, id: string, k: nat)
    requires k < |PassOf(rules, m, at, id)|
    ensures PassOf(rules, m, at, id)[k].at == at
  {
    var rest := PassOf(rules[1..], m, at, id);
    if PassOf(rules, m, at, id) == rest {
      PassHasOneClock(rules[1..], m, at, id, k);
    } else if k > 0 {
      PassHasOneClock(rules[1..], m, at, id, k - 1);
    }
  }

  /** Every evaluation of a rule is at the clock of one of the passes. */
  lemma {:induction false} HistoryHasRunsClocks(rules: seq<RuleDefinition>, run: seq<Event>, id: string, k: nat)
      returns (e: nat)
    requires k < |HistoryOf(rules, run, id)|
    ensures e < |run| && run[e].Evaluated? && run[e].at == HistoryOf(rules, run, id)[k].at
    decreases |run|
  {
    match run[0] {
      case Synced(newRules) =>
        e := HistoryHasRunsClocks(newRules, run[1..], id, k);
        e := e + 1;
      case Evaluated(m, at) =>
        var n := |PassOf(rules, m, at, id)|;
        if k < n {
          PassHasOneClock(rules, m, at, id, k);
          e := 0;
        } else {
          e := HistoryHasRunsClocks(rules, run[1..], id, k - n);
          e := e + 1;
        }
    }
  }

  lemma {:induction false} RunHistoryIsChronological(rules: seq<RuleDefinition>, run: seq<Event>, id: string)
    requires ChronologicalRun(run)
    ensures Chronological(HistoryOf(rules, run, id))
    decreases |run|
  {
    if run != [] {
      var later := run[1..];
      assert ChronologicalRun(later) by {
        forall i, j | 0 <= i < j < |later| && later[i].Evaluated? && later[j].Evaluated?
          ensures InOrder(later[i].at, later[j].at)
        {
          assert later[i] == run[i + 1] && later[j] == run[j + 1];
        }
      }
      match run[0] {
        case Synced(newRules) => RunHistoryIsChronological(newRules, later, id);
        case Evaluated(m, at) =>
          RunHistoryIsChronological(rules, later, id);
          var pass, rest := PassOf(rules, m, at, id), HistoryOf(rules, later, id);
          var h: History := pass + rest;
          forall i, j | 0 <= i < j < |h| ensures InOrder(h[i].at, h[j].at) {
            if i < |pass| {
              PassHasOneClock(rules, m, at, id, i);
              if j < |pass| {
                PassHasOneClock(rules, m, at, id, j);
              } else {
                var e := HistoryHasRunsClocks(rules, later, id, j - |pass|);
                assert later[e] == run[e + 1];
              }
            }
          }
      }
    }
  }

  /** The times of the evaluations at which the rule is due, from evaluation i on. */
  function DueTimes(h: History, i: nat): seq<int>
    requires i <= |h|
    decreases |h| - i
  {
    if i == |h| then [] else (if Due(h, i) then [h[i].at.now] else []) + DueTimes(h, i + 1)
  }

  lemma {:induction false} FiringTimesAreDue(h: History, i: nat)
    requires Chronological(h) && i <= |h|
    ensures FiringTimes(h, i) == DueTimes(h, i)
    decreases |h| - i
  {
    if i < |h| {
      FiresIffHistorySaysSo(h, i);
      FiringTimesAreDue(h, i + 1);
    }
  }

  /** The engine from end to end: over any run of evaluations and rule replacements whose clock
      does not run backwards, a rule is reported at exactly the times at which its history of
      evaluations makes it due. */
  lemma EngineFiresWhenDue(rules: seq<RuleDefinition>, run: seq<Event>, id: string)
    requires ChronologicalRun(run)
    ensures var h := HistoryOf(rules, run, id);
            Chronological(h) && TimesOf(RunEngine(map[], rules, run).1, id) == DueTimes(h, 0)
  {
    EngineFiresByHistory(rules, run, id);
    RunHistoryIsChronological(rules, run, id);
    FiringTimesAreDue(HistoryOf(rules, run, id), 0);
  }
}
