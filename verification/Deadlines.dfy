/** The broker's deadlines: one timer covers every hold, and no hold outlives its last `begin` for long. */
module Deadlines {
  import opened Seqs
  import opened Broker
  import opened Batches
  import opened Ledger

  /** With a timeout, a timer is armed exactly while something is held, no later than any deadline. */
  ghost predicate Covered(s: State, timeout: int, clock: int) {
    && (s.timer.Some? <==> s.holds != [])
    && (s.timer.Some? ==> s.timer.value <= clock + timeout)
    && forall h :: h in s.holds ==>
         h.deadline.By? && h.deadline.time <= clock + timeout && (s.timer.Some? ==> s.timer.value <= h.deadline.time)
  }

  lemma {:induction false} EarliestFacts(holds: seq<Hold>)
    ensures var e := Earliest(holds);
            && (e.By? ==> exists h :: h in holds && h.deadline == e)
            && forall h :: h in holds && h.deadline.By? ==> e.By? && e.time <= h.deadline.time
  {
    if holds != [] {
      var before, h := Init(holds), Last(holds);
      assert holds == before + [h];
      EarliestFacts(before);
      var e := Earliest(holds);
      if e.By? && e != h.deadline {
        var g :| g in before && g.deadline == e;
        assert g in holds;
      } else if e.By? {
        assert h in holds;
      }
    }
  }

  /** An idle timer is armed at the earliest deadline, if there is one, but at least one unit from now; an armed one
      stays. */
  lemma ArmedAtEarliest(s: State, now: int)
    ensures var r := Armed(s, now);
            && r == s.(timer := r.timer)
            && (s.timer.Some? ==> r.timer == s.timer)
            && (s.timer.None? ==>
                  && (r.timer.None? <==> forall h :: h in s.holds ==> h.deadline.Never?)
                  && (r.timer.Some? ==> exists h :: h in s.holds && DueAt(h, now, r.timer.value))
                  && forall h, due :: h in s.holds && DueAt(h, now, due) ==> r.timer.Some? && r.timer.value <= due)
  {
    EarliestFacts(s.holds);
  }

  /** When a timer for this hold alone would be due. */
  predicate DueAt(h: Hold, now: int, due: int) {
    h.deadline.By? && due == if h.deadline.time > now + 1 then h.deadline.time else now + 1
  }

  /** Arming puts the timer on the earliest deadline, unless that has passed. */
  lemma ArmedCovers(s: State, timeout: int, now: int)
    requires timeout >= 1 && s.timer.None?
    requires forall h :: h in s.holds ==> h.deadline.By? && now < h.deadline.time <= now + timeout
    ensures Covered(Armed(s, now), timeout, now)
  {
    EarliestFacts(s.holds);
    if s.holds != [] { assert s.holds[0] in s.holds; }
  }

  lemma RoundShrinks(s: State, forced: bool, m: Moment)
    ensures var r := Round(s, forced, m).state;
            && (forall h :: h in r.holds ==> h in s.holds)
            && r.timer == if r.holds == [] && s.holds != [] then None else s.timer
  {
    if s.holds == [] { assert HoldsToApply(s.holds, forced, m) == []; }
  }

  /** A tick leaves no hold whose deadline has come. */
  lemma TickClears(s: State, m: Moment)
    requires Inv(s)
    ensures forall h :: h in Ticked(s, m).state.holds ==> h in s.holds && !Expired(h, m.now)
  {
    var s0 := s.(timer := None);
    RoundKeeps(s0, true, m);
    forall h | h in s.holds && Expired(h, m.now) ensures Chosen(s.holds, h, true, m) {
      assert h in Group(s.holds, Key(h));
    }
  }

  lemma TickCovers(s: State, timeout: int, clock: int, m: Moment)
    requires Inv(s) && timeout >= 1 && clock <= m.now && Covered(s, timeout, clock)
    ensures Covered(Ticked(s, m).state, timeout, m.now)
  {
    TickClears(s, m);
    var s0 := s.(timer := None);
    if s0.holds != [] {
      var r := Round(s0, true, m).state;
      RoundShrinks(s0, true, m);
      if r.holds != [] { ArmedCovers(r, timeout, m.now); }
    }
  }

  lemma EnrollCovers(s: State, x: int, req: Request, timeout: int, clock: int, now: int)
    requires timeout >= 1 && clock <= now && Covered(s, timeout, clock)
    ensures Covered(Enroll(s, x, req, timeout, now), timeout, now)
  {
    var i := Find(s.holds, x);
    var holds := Enrolled(s.holds, x, req, timeout, now);
    FindIt(s.holds, x);
    if s.timer.None? {
      assert holds == [Hold(x, [req], By(now + timeout))];
      ArmedCovers(s.(holds := holds), timeout, now);
    } else {
      forall h | h in holds ensures h.deadline.By? && s.timer.value <= h.deadline.time <= now + timeout {
        if i >= 0 && h == holds[i] { assert s.holds[i] in s.holds; }
      }
    }
  }

  lemma EvaluatedCovers(s: State, timeout: int, clock: int, m: Moment)
    requires clock <= m.now && Covered(s, timeout, clock)
    ensures Covered(Evaluated(s, m).state, timeout, m.now)
  {
    if s.holds != [] { RoundShrinks(s, false, m); }
  }

  /** The timer covers the holds after every step, whatever the step and however late it comes. */
  lemma StepCovers(s: State, op: Op, timeout: int, clock: int, m: Moment)
    requires Inv(s) && Possible(s, op) && timeout >= 1 && clock <= m.now && Covered(s, timeout, clock)
    ensures Covered(Step(s, op, timeout, m).state, timeout, m.now)
  {
    match op
    case Begin(x, req) =>
      EnrollCovers(s, x, req, timeout, clock, m.now);
      EvaluatedCovers(Enroll(s, x, req, timeout, m.now), timeout, m.now, m);
    case Evaluate => EvaluatedCovers(s, timeout, clock, m);
    case FrozenReady(x) => if Has(s, x) { EvaluatedCovers(s, timeout, clock, m); }
    case Tick => TickCovers(s, timeout, clock, m);
    case _ =>
  }

  // ----- Over runs -----

  /** The clock never runs backwards. */
  ghost predicate Monotone(steps: seq<Stage>) {
    steps != [] ==>
      Monotone(Init(steps)) && (|steps| > 1 ==> Last(Init(steps)).at.now <= Last(steps).at.now)
  }

  lemma {:induction false} EveryRunCovered(steps: seq<Stage>, timeout: int)
    requires steps != [] && AllPossible(steps, timeout) && Monotone(steps) && timeout >= 1
    ensures Covered(Run(steps, timeout).state, timeout, Last(steps).at.now)
  {
    var before, last := Init(steps), Last(steps);
    EveryRunBalances(before, timeout, Frozen(0));
    if before == [] {
      StepCovers(IDLE, last.op, timeout, last.at.now, last.at);
    } else {
      EveryRunCovered(before, timeout);
      StepCovers(Run(before, timeout).state, last.op, timeout, Last(before).at.now, last.at);
    }
  }

  /** When the surface last had a requirement begun. */
  function LastBegin(steps: seq<Stage>, x: int): int {
    if steps == [] then 0
    else if Last(steps).op.Begin? && Last(steps).op.surface == x then Last(steps).at.now
    else LastBegin(Init(steps), x)
  }

  lemma EnrolledMembers(holds: seq<Hold>, x: int, req: Request, timeout: int, now: int, h: Hold)
    requires Distinct(Surfaces(holds)) && h in Enrolled(holds, x, req, timeout, now)
    ensures if h.surface != x then h in holds
            else x in Surfaces(holds) ==>
              exists g :: g in holds && g.surface == x && h.deadline == Extended(g.deadline, timeout, now)
    ensures h.surface == x && x !in Surfaces(holds) ==> h == Hold(x, [req], if timeout > 0 then By(now + timeout) else Never)
  {
    var i := Find(holds, x);
    var r := Enrolled(holds, x, req, timeout, now);
    FindIt(holds, x);
    var j :| 0 <= j < |r| && r[j] == h;
    if i >= 0 && j != i {
      assert Surfaces(holds)[i] != Surfaces(holds)[j];
      assert h in holds;
    } else if i >= 0 {
      assert holds[i] in holds;
    } else if h in holds {
      SurfaceOf(holds, h);
    }
  }

  lemma StepMembers(s: State, op: Op, timeout: int, m: Moment, h: Hold)
    requires Inv(s) && Possible(s, op) && h in Step(s, op, timeout, m).state.holds
    ensures h in if op.Begin? then Enrolled(s.holds, op.surface, op.req, timeout, m.now) else s.holds
  {
    match op
    case Begin(x, req) => RoundShrinks(Enroll(s, x, req, timeout, m.now), false, m);
    case Evaluate => RoundShrinks(s, false, m);
    case FrozenReady(x) => RoundShrinks(s, false, m);
    case Tick => RoundShrinks(s.(timer := None), true, m);
    case _ =>
  }

  /** Where a hold after a step comes from. */
  lemma StepDeadline(s: State, op: Op, timeout: int, m: Moment, h: Hold)
    requires Distinct(Surfaces(s.holds)) && timeout >= 1
    requires h in if op.Begin? then Enrolled(s.holds, op.surface, op.req, timeout, m.now) else s.holds
    ensures if op.Begin? && op.surface == h.surface then
              h.deadline == By(m.now + timeout)
              || exists g :: g in s.holds && g.surface == h.surface && h.deadline == Extended(g.deadline, timeout, m.now)
            else h in s.holds
  {
    if op.Begin? { EnrolledMembers(s.holds, op.surface, op.req, timeout, m.now, h); }
  }

  /** The hold's deadline follows a `begin` at `began`, not in the future. */
  predicate Follows(h: Hold, began: int, timeout: int, clock: int) {
    h.deadline == By(began + timeout) && began <= clock
  }

  lemma FollowsStep(before: seq<Stage>, last: Stage, s: State, timeout: int, clock: int, h: Hold)
    requires Distinct(Surfaces(s.holds)) && timeout >= 1 && clock <= last.at.now
    requires forall g :: g in s.holds ==> Follows(g, LastBegin(before, g.surface), timeout, clock)
    requires h in if last.op.Begin? then Enrolled(s.holds, last.op.surface, last.op.req, timeout, last.at.now) else s.holds
    ensures Follows(h, LastBegin(before + [last], h.surface), timeout, last.at.now)
  {
    Extend(before, [last]);
    StepDeadline(s, last.op, timeout, last.at, h);
  }

  /** A run is its last step after the run before. */
  lemma RunStep(steps: seq<Stage>, timeout: int) returns (s: State, r: State)
    requires steps != [] && AllPossible(steps, timeout)
    ensures AllPossible(Init(steps), timeout) && s == Run(Init(steps), timeout).state
    ensures Possible(s, Last(steps).op) && Inv(s)
    ensures r == Run(steps, timeout).state && r == Step(s, Last(steps).op, timeout, Last(steps).at).state
  {
    s, r := Run(Init(steps), timeout).state, Run(steps, timeout).state;
    RunInv(Init(steps), timeout);
  }

  lemma RunInv(steps: seq<Stage>, timeout: int)
    requires AllPossible(steps, timeout)
    ensures Inv(Run(steps, timeout).state)
  {
    EveryRunBalances(steps, timeout, Frozen(0));
  }

  lemma RunStart(timeout: int)
    ensures Run([], timeout).state == IDLE
  {
  }

  ghost predicate AllFollow(steps: seq<Stage>, r: State, timeout: int) {
    forall h :: h in r.holds ==> steps != [] && Follows(h, LastBegin(steps, h.surface), timeout, Last(steps).at.now)
  }

  /** A hold's deadline is its last `begin` plus the timeout. */
  lemma {:induction false} DeadlineFollowsLastBegin(steps: seq<Stage>, timeout: int)
    requires AllPossible(steps, timeout) && Monotone(steps) && timeout >= 1
    ensures AllFollow(steps, Run(steps, timeout).state, timeout)
    decreases |steps|
  {
    if steps == [] {
      RunStart(timeout);
    } else {
      DeadlineFollowsLastBegin(Init(steps), timeout);
      FollowsRun(steps, timeout);
    }
  }

  /** Every hold after the step was there before, or the step's own `begin` made or extended it. */
  ghost predicate From(s: State, last: Stage, timeout: int, r: State) {
    && Distinct(Surfaces(s.holds))
    && forall h :: h in r.holds ==>
         h in if last.op.Begin? then Enrolled(s.holds, last.op.surface, last.op.req, timeout, last.at.now) else s.holds
  }

  lemma StepFrom(s: State, last: Stage, timeout: int)
    requires Inv(s) && Possible(s, last.op)
    ensures From(s, last, timeout, Step(s, last.op, timeout, last.at).state)
  {
    forall h | h in Step(s, last.op, timeout, last.at).state.holds
      ensures h in if last.op.Begin? then Enrolled(s.holds, last.op.surface, last.op.req, timeout, last.at.now) else s.holds
    {
      StepMembers(s, last.op, timeout, last.at, h);
    }
  }

  lemma RunFrom(steps: seq<Stage>, timeout: int)
    requires steps != [] && AllPossible(steps, timeout)
    ensures AllPossible(Init(steps), timeout)
    ensures From(Run(Init(steps), timeout).state, Last(steps), timeout, Run(steps, timeout).state)
  {
    RunInv(Init(steps), timeout);
    StepFrom(Run(Init(steps), timeout).state, Last(steps), timeout);
  }

  lemma FollowsRun(steps: seq<Stage>, timeout: int)
    requires steps != [] && AllPossible(steps, timeout) && Monotone(steps) && timeout >= 1
    requires AllPossible(Init(steps), timeout) && AllFollow(Init(steps), Run(Init(steps), timeout).state, timeout)
    ensures AllFollow(steps, Run(steps, timeout).state, timeout)
  {
    RunFrom(steps, timeout);
    FollowsOn(steps, Run(Init(steps), timeout).state, timeout, Run(steps, timeout).state);
  }

  /** One more step. */
  lemma FollowsOn(steps: seq<Stage>, s: State, timeout: int, r: State)
    requires steps != [] && timeout >= 1 && Monotone(steps)
    requires From(s, Last(steps), timeout, r) && AllFollow(Init(steps), s, timeout)
    ensures AllFollow(steps, r, timeout)
  {
    var before, last := Init(steps), Last(steps);
    assert before + [last] == steps;
    forall h | h in r.holds ensures Follows(h, LastBegin(steps, h.surface), timeout, last.at.now) {
      FollowsStep(before, last, s, timeout, if before == [] then last.at.now else Last(before).at.now, h);
    }
  }

  /** Timers fire on time: nothing happens after an armed timer is due before its tick. */
  ghost predicate Punctual(steps: seq<Stage>, timeout: int)
    requires AllPossible(steps, timeout)
    decreases |steps|
  {
    steps != [] ==>
      && Punctual(Init(steps), timeout)
      && var s := Run(Init(steps), timeout).state; s.timer.Some? ==> Last(steps).at.now <= s.timer.value
  }

  /** With punctual timers no hold outlives its last `begin` by more than the timeout. */
  lemma DeadlineBound(steps: seq<Stage>, timeout: int, h: Hold)
    requires AllPossible(steps, timeout) && Monotone(steps) && timeout >= 1 && Punctual(steps, timeout)
    requires h in Run(steps, timeout).state.holds
    ensures steps != [] && Last(steps).at.now <= LastBegin(steps, h.surface) + timeout
    ensures Last(steps).op.Tick? ==> Last(steps).at.now < LastBegin(steps, h.surface) + timeout
  {
    DeadlineFollowsLastBegin(steps, timeout);
    var s, r := RunStep(steps, timeout);
    var before, last := Init(steps), Last(steps);
    StepMembers(s, last.op, timeout, last.at, h);
    if before == [] { RunStart(timeout); } else { EveryRunCovered(before, timeout); }
    OnTime(s, last, timeout, h);
  }

  /** Whatever happens by the time the timer is due leaves no hold past its deadline. */
  lemma OnTime(s: State, last: Stage, timeout: int, h: Hold)
    requires Inv(s) && timeout >= 1 && Possible(s, last.op) && h in Step(s, last.op, timeout, last.at).state.holds
    requires h in if last.op.Begin? then Enrolled(s.holds, last.op.surface, last.op.req, timeout, last.at.now) else s.holds
    requires s.timer.Some? ==> last.at.now <= s.timer.value
    requires (s.timer.Some? <==> s.holds != [])
             && forall g :: g in s.holds ==> g.deadline.By? && s.timer.value <= g.deadline.time
    ensures h.deadline.By? && last.at.now <= h.deadline.time
    ensures last.op.Tick? ==> last.at.now < h.deadline.time
  {
    if last.op.Tick? { TickClears(s, last.at); } else { StepDeadline(s, last.op, timeout, last.at, h); }
  }
}
