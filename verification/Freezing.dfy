/** When the screen agrees with the hold table: a surface looks frozen exactly while the broker owes it a
    thaw, except after a gate resolves late. */
module Freezing {
  import opened Seqs
  import opened Broker
  import opened Batches
  import opened Ledger

  /** The last word of the log on a surface. */
  function Verdict(log: seq<Event>, x: int): Option<bool> {
    if log == [] then None
    else match Last(log)
      case Froze(y) => if y == x then Some(true) else Verdict(Init(log), x)
      case Thawed(y) => if y == x then Some(false) else Verdict(Init(log), x)
      case _ => Verdict(Init(log), x)
  }

  predicate LooksFrozen(log: seq<Event>, x: int) { Verdict(log, x) == Some(true) }

  predicate InSome(pending: seq<seq<Hold>>, x: int) {
    exists i :: 0 <= i < |pending| && x in Surfaces(pending[i])
  }

  /** The broker still owes the surface a thaw. */
  predicate Booked(s: State, x: int) { Has(s, x) || InSome(s.pending, x) }

  /** On screen, the surface is frozen exactly while it is booked. */
  predicate Faithful(s: State, log: seq<Event>, x: int) { LooksFrozen(log, x) <==> Booked(s, x) }

  function Latest(a: Option<bool>, b: Option<bool>): Option<bool> { if b.Some? then b else a }

  lemma {:induction false} VerdictConcat(a: seq<Event>, b: seq<Event>, x: int)
    ensures Verdict(a + b, x) == Latest(Verdict(a, x), Verdict(b, x))
  {
    if b == [] {
      assert a + b == a;
    } else {
      VerdictConcat(a, Init(b), x);
      Extend(a, b);
    }
  }

  lemma {:induction false} NoVerdict(log: seq<Event>, x: int)
    requires forall i :: 0 <= i < |log| ==> !log[i].Froze? && !log[i].Thawed?
    ensures Verdict(log, x) == None
  {
    if log != [] { NoVerdict(Init(log), x); }
  }

  lemma LastWords(h: Hold, log: seq<Event>, x: int)
    requires forall i :: 0 <= i < |log| ==> !log[i].Froze? && !log[i].Thawed?
    ensures Verdict(log + [Thawed(h.surface)], x) == if x == h.surface then Some(false) else None
  {
    NoVerdict(log, x);
    Extend(log, [Thawed(h.surface)]);
  }

  lemma {:induction false} ReleasesThaw(batch: seq<Hold>, x: int)
    ensures Verdict(Releases(batch), x) == if x in Surfaces(batch) then Some(false) else None
  {
    if batch != [] {
      var h := Last(batch);
      ReleasesThaw(Init(batch), x);
      LastWords(h, Applications(h.reqs), x);
      VerdictConcat(Releases(Init(batch)), Applications(h.reqs) + [Thawed(h.surface)], x);
      assert Surfaces(batch) == Surfaces(Init(batch)) + [h.surface];
    }
  }

  lemma FinishThaws(batch: seq<Hold>, afters: nat, x: int)
    ensures Verdict(Finish(batch, afters), x) == if x in Surfaces(batch) then Some(false) else None
  {
    var tail := seq(afters, i => AfterApply);
    ReleasesThaw(batch, x);
    NoVerdict(tail, x);
    VerdictConcat(Releases(batch), tail, x);
  }

  lemma AppliedFrom(holds: seq<Hold>, forced: bool, m: Moment, x: int)
    requires Distinct(Surfaces(holds))
    ensures var list := HoldsToApply(holds, forced, m);
            x in Surfaces(holds) <==> x in Surfaces(Without(holds, list)) || x in Surfaces(list)
    ensures var list := HoldsToApply(holds, forced, m);
            !(x in Surfaces(Without(holds, list)) && x in Surfaces(list))
  {
    var list := HoldsToApply(holds, forced, m);
    ApplySplits(holds, forced, m, Frozen(x));
    FrozenOnce(holds, x);
    FrozenOnce(list, x);
    FrozenOnce(Without(holds, list), x);
  }

  lemma InSomeMore(pending: seq<seq<Hold>>, batch: seq<Hold>, x: int)
    ensures InSome(pending + [batch], x) <==> InSome(pending, x) || x in Surfaces(batch)
  {
    var all := pending + [batch];
    if InSome(pending, x) {
      var i :| 0 <= i < |pending| && x in Surfaces(pending[i]);
      assert all[i] == pending[i];
    }
    if x in Surfaces(batch) { assert all[|pending|] == batch; }
  }

  /** A round that applies at once would thaw `x` while an earlier batch with `x` waits for its gates. */
  predicate RoundThawsEarly(s: State, forced: bool, m: Moment, x: int) {
    && !(s.gates > 0 && m.deferred)
    && x in Surfaces(HoldsToApply(s.holds, forced, m))
    && InSome(s.pending, x)
  }

  /** The step thaws `x` although a later hold or another batch still wants it frozen. */
  predicate ThawsEarly(s: State, op: Op, timeout: int, m: Moment, x: int)
    requires Possible(s, op)
  {
    match op
    case Begin(y, req) => RoundThawsEarly(Enroll(s, y, req, timeout, m.now), false, m, x)
    case Evaluate => RoundThawsEarly(s, false, m, x)
    case FrozenReady(y) => Has(s, y) && RoundThawsEarly(s, false, m, x)
    case Tick => RoundThawsEarly(s, true, m, x)
    case Cancel(y) => y == x && Has(s, x) && InSome(s.pending, x)
    case Resolve(b) => x in Surfaces(s.pending[b]) && (Has(s, x) || InSome(RemoveAt(s.pending, b), x))
    case OnBeforeApply => false
    case OnAfterApply => false
  }

  lemma RoundFaithful(s: State, forced: bool, m: Moment, log: seq<Event>, x: int)
    requires Inv(s) && Faithful(s, log, x)
    ensures var r := Round(s, forced, m);
            Faithful(r.state, log + r.events, x) <==> !RoundThawsEarly(s, forced, m, x)
  {
    var r := Round(s, forced, m);
    var list := HoldsToApply(s.holds, forced, m);
    VerdictConcat(log, r.events, x);
    if list != [] {
      AppliedFrom(s.holds, forced, m, x);
      var asked := seq(s.gates, i => Gated(Surfaces(list)));
      NoVerdict(asked, x);
      if s.gates > 0 && m.deferred {
        InSomeMore(s.pending, list, x);
      } else {
        FinishThaws(list, s.afters, x);
        VerdictConcat(asked, Finish(list, s.afters), x);
      }
    }
  }

  lemma EvaluatedFaithful(s: State, m: Moment, log: seq<Event>, x: int)
    requires Inv(s) && Faithful(s, log, x)
    ensures var r := Evaluated(s, m);
            Faithful(r.state, log + r.events, x) <==> !RoundThawsEarly(s, false, m, x)
  {
    RoundFaithful(s, false, m, log, x);
    assert s.holds == [] ==> HoldsToApply(s.holds, false, m) == [];
  }

  lemma OpeningFreezes(s: State, y: int, req: Request, x: int)
    ensures Verdict(Opening(s, y, req), x) == if x == y && !Has(s, y) then Some(true) else None
  {
    var e := Opening(s, y, req);
    if Has(s, y) {
      NoVerdict(e, x);
    } else {
      assert Init(e) == [Began(y, req.id), Froze(y)];
      assert Init(Init(e)) == [Began(y, req.id)];
      NoVerdict([Began(y, req.id)], x);
    }
  }

  lemma EnrollFaithful(s: State, y: int, req: Request, timeout: int, now: int, log: seq<Event>, x: int)
    requires Inv(s) && Faithful(s, log, x)
    ensures var s1 := Enroll(s, y, req, timeout, now); Inv(s1) && Faithful(s1, log + Opening(s, y, req), x)
  {
    EnrolledSurfaces(s.holds, y, req, timeout, now);
    OpeningFreezes(s, y, req, x);
    VerdictConcat(log, Opening(s, y, req), x);
  }

  lemma Assoc<T>(a: seq<T>, b: seq<T>, c: seq<T>)
    ensures a + b + c == a + (b + c)
  {
  }

  lemma BeginFaithful(s: State, y: int, req: Request, timeout: int, m: Moment, log: seq<Event>, x: int)
    requires Inv(s) && Faithful(s, log, x)
    ensures var r := Step(s, Begin(y, req), timeout, m);
            Faithful(r.state, log + r.events, x) <==> !ThawsEarly(s, Begin(y, req), timeout, m, x)
  {
    var s1, e := Enroll(s, y, req, timeout, m.now), Opening(s, y, req);
    EnrollFaithful(s, y, req, timeout, m.now, log, x);
    EvaluatedFaithful(s1, m, log + e, x);
    Assoc(log, e, Evaluated(s1, m).events);
  }

  lemma ReadyFaithful(s: State, y: int, timeout: int, m: Moment, log: seq<Event>, x: int)
    requires Inv(s) && Faithful(s, log, x)
    ensures var r := Step(s, FrozenReady(y), timeout, m);
            Faithful(r.state, log + r.events, x) <==> !ThawsEarly(s, FrozenReady(y), timeout, m, x)
  {
    if Has(s, y) {
      var news := Renderings(s.holds[Find(s.holds, y)].reqs);
      NoVerdict(news, x);
      VerdictConcat(log, news, x);
      EvaluatedFaithful(s, m, log + news, x);
      Assoc(log, news, Evaluated(s, m).events);
    } else {
      assert log + [] == log;
    }
  }

  lemma CancelFaithful(s: State, y: int, timeout: int, m: Moment, log: seq<Event>, x: int)
    requires Distinct(Surfaces(s.holds)) && Faithful(s, log, x)
    ensures var r := Step(s, Cancel(y), timeout, m);
            Faithful(r.state, log + r.events, x) <==> !ThawsEarly(s, Cancel(y), timeout, m, x)
  {
    if Has(s, y) {
      var i := Find(s.holds, y);
      var e := Dropped(s, i).events;
      DroppedVerdict(s, i, x);
      VerdictConcat(log, e, x);
      RemoveSurface(s.holds, i, x);
    } else {
      assert log + [] == log;
    }
  }

  lemma DroppedVerdict(s: State, i: nat, x: int)
    requires i < |s.holds|
    ensures Verdict(Dropped(s, i).events, x) == if x == s.holds[i].surface then Some(false) else None
  {
    var h := s.holds[i];
    LastWords(h, Cancellations(h.reqs), x);
  }

  lemma RemoveSurface(holds: seq<Hold>, i: nat, x: int)
    requires Distinct(Surfaces(holds)) && i < |holds|
    ensures x in Surfaces(RemoveAt(holds, i)) <==> x in Surfaces(holds) && x != holds[i].surface
  {
    var r := RemoveAt(holds, i);
    assert Surfaces(r) == RemoveAt(Surfaces(holds), i);
    IndexOfDistinct(Surfaces(holds), i);
    RemoveFacts(Surfaces(holds), holds[i].surface);
  }

  lemma InSomeRemoved(pending: seq<seq<Hold>>, b: nat, x: int)
    requires b < |pending|
    ensures InSome(pending, x) <==> InSome(RemoveAt(pending, b), x) || x in Surfaces(pending[b])
  {
    var r := RemoveAt(pending, b);
    if InSome(pending, x) {
      var i :| 0 <= i < |pending| && x in Surfaces(pending[i]);
      if i != b { assert r[if i < b then i else i - 1] == pending[i]; }
    }
    if InSome(r, x) {
      var i :| 0 <= i < |r| && x in Surfaces(r[i]);
      assert r[i] == pending[if i < b then i else i + 1];
    }
  }

  lemma ResolveFaithful(s: State, b: nat, timeout: int, m: Moment, log: seq<Event>, x: int)
    requires b < |s.pending| && Faithful(s, log, x)
    ensures var r := Step(s, Resolve(b), timeout, m);
            Faithful(r.state, log + r.events, x) <==> !ThawsEarly(s, Resolve(b), timeout, m, x)
  {
    FinishThaws(s.pending[b], s.afters, x);
    VerdictConcat(log, Finish(s.pending[b], s.afters), x);
    InSomeRemoved(s.pending, b, x);
  }

  /** A step keeps the screen faithful if and only if it does not thaw early. */
  lemma FaithfulExactlyUnlessEarly(s: State, op: Op, timeout: int, m: Moment, log: seq<Event>, x: int)
    requires Inv(s) && Possible(s, op) && Faithful(s, log, x)
    ensures var r := Step(s, op, timeout, m);
            Faithful(r.state, log + r.events, x) <==> !ThawsEarly(s, op, timeout, m, x)
  {
    match op
    case Begin(y, req) => BeginFaithful(s, y, req, timeout, m, log, x);
    case Evaluate => EvaluatedFaithful(s, m, log, x);
    case Cancel(y) => CancelFaithful(s, y, timeout, m, log, x);
    case FrozenReady(y) => ReadyFaithful(s, y, timeout, m, log, x);
    case Tick => TickFaithful(s, timeout, m, log, x);
    case Resolve(b) => ResolveFaithful(s, b, timeout, m, log, x);
    case _ => assert log + [] == log;
  }

  lemma TickFaithful(s: State, timeout: int, m: Moment, log: seq<Event>, x: int)
    requires Inv(s) && Faithful(s, log, x) && s.timer.Some?
    ensures var r := Ticked(s, m);
            Faithful(r.state, log + r.events, x) <==> !RoundThawsEarly(s, true, m, x)
  {
    TickIsRound(s, m);
    RoundFaithful(s.(timer := None), true, m, log, x);
  }

  lemma StepWithoutGates(s: State, op: Op, timeout: int, m: Moment, x: int)
    requires Possible(s, op) && s.pending == [] && !m.deferred
    ensures Step(s, op, timeout, m).state.pending == [] && !ThawsEarly(s, op, timeout, m, x)
  {
  }

  /** The surface is faithful after every step of the run. */
  ghost predicate FaithfulThroughout(steps: seq<Stage>, timeout: int, x: int)
    requires AllPossible(steps, timeout)
    decreases |steps|
  {
    && Faithful(Run(steps, timeout).state, Run(steps, timeout).events, x)
    && (steps != [] ==> FaithfulThroughout(Init(steps), timeout, x))
  }

  /** No step of the run thaws the surface early. */
  ghost predicate NeverEarly(steps: seq<Stage>, timeout: int, x: int)
    requires AllPossible(steps, timeout)
    decreases |steps|
  {
    steps != [] ==>
      && NeverEarly(Init(steps), timeout, x)
      && !ThawsEarly(Run(Init(steps), timeout).state, Last(steps).op, timeout, Last(steps).at, x)
  }

  /** Over every run: the screen is faithful throughout if and only if no step thaws early. */
  lemma {:induction false} FaithfulThroughoutIff(steps: seq<Stage>, timeout: int, x: int)
    requires AllPossible(steps, timeout)
    ensures FaithfulThroughout(steps, timeout, x) <==> NeverEarly(steps, timeout, x)
    decreases |steps|
  {
    if steps == [] {
      IdleFaithful(timeout, x);
    } else {
      FaithfulThroughoutIff(Init(steps), timeout, x);
      if FaithfulThroughout(Init(steps), timeout, x) { RunFaithful(steps, timeout, x); }
    }
  }

  lemma IdleFaithful(timeout: int, x: int)
    ensures Faithful(Run([], timeout).state, Run([], timeout).events, x)
  {
  }

  lemma RunFaithful(steps: seq<Stage>, timeout: int, x: int)
    requires steps != [] && AllPossible(steps, timeout)
    requires Faithful(Run(Init(steps), timeout).state, Run(Init(steps), timeout).events, x)
    ensures Faithful(Run(steps, timeout).state, Run(steps, timeout).events, x)
       <==> !ThawsEarly(Run(Init(steps), timeout).state, Last(steps).op, timeout, Last(steps).at, x)
  {
    var before := Run(Init(steps), timeout);
    EveryRunBalances(Init(steps), timeout, Frozen(x));
    FaithfulExactlyUnlessEarly(before.state, Last(steps).op, timeout, Last(steps).at, before.events, x);
  }

  // ----- What a caller can do about it -----

  /** No requirement is begun on the surface while a batch with it waits for its gates. */
  ghost predicate BeginsClear(steps: seq<Stage>, timeout: int, x: int)
    requires AllPossible(steps, timeout)
    decreases |steps|
  {
    steps != [] ==>
      && BeginsClear(Init(steps), timeout, x)
      && !BeginsLate(Run(Init(steps), timeout).state, Last(steps).op, x)
  }

  predicate BeginsLate(s: State, op: Op, x: int) { op.Begin? && op.surface == x && InSome(s.pending, x) }

  lemma {:induction false} SomeWaits(pending: seq<seq<Hold>>, x: int)
    ensures InSome(pending, x) <==> Waiting(pending, x) > 0
  {
    if pending != [] {
      SomeWaits(Init(pending), x);
      InSomeMore(Init(pending), Last(pending), x);
      assert pending == Init(pending) + [Last(pending)];
    }
  }

  lemma DebtOf(s: State, x: int)
    requires Inv(s)
    ensures Debt(s, Frozen(x)) == (if Has(s, x) then 1 else 0) + Waiting(s.pending, x)
    ensures InSome(s.pending, x) <==> Waiting(s.pending, x) > 0
  {
    FrozenOnce(s.holds, x);
    FrozenWaiting(s.pending, x);
    SomeWaits(s.pending, x);
  }

  /** With one debt at most, a hold and a waiting batch exclude each other, and so do two batches. */
  lemma OneDebt(s: State, x: int, b: nat)
    requires Inv(s) && Debt(s, Frozen(x)) <= 1
    ensures !(Has(s, x) && InSome(s.pending, x))
    ensures b < |s.pending| && x in Surfaces(s.pending[b]) ==> !InSome(RemoveAt(s.pending, b), x)
  {
    DebtOf(s, x);
    if b < |s.pending| && x in Surfaces(s.pending[b]) {
      PendingTake(s.pending, b, Frozen(x));
      FrozenOnce(s.pending[b], x);
      FrozenWaiting(RemoveAt(s.pending, b), x);
      SomeWaits(RemoveAt(s.pending, b), x);
    }
  }

  lemma RoundSpares(s: State, forced: bool, m: Moment, x: int)
    requires Distinct(Surfaces(s.holds)) && !(Has(s, x) && InSome(s.pending, x))
    ensures !RoundThawsEarly(s, forced, m, x)
  {
    AppliedFrom(s.holds, forced, m, x);
  }

  lemma ClearStep(s: State, op: Op, timeout: int, m: Moment, x: int)
    requires Inv(s) && Possible(s, op) && Debt(s, Frozen(x)) <= 1 && !BeginsLate(s, op, x)
    ensures Debt(Step(s, op, timeout, m).state, Frozen(x)) <= 1 && !ThawsEarly(s, op, timeout, m, x)
  {
    StepBalances(s, op, timeout, m, Frozen(x));
    DebtOf(s, x);
    match op
    case Begin(y, req) =>
      EnrolledSurfaces(s.holds, y, req, timeout, m.now);
      RoundSpares(Enroll(s, y, req, timeout, m.now), false, m, x);
    case Resolve(b) => OneDebt(s, x, b);
    case Tick => RoundSpares(s, true, m, x);
    case Evaluate => RoundSpares(s, false, m, x);
    case FrozenReady(_) => RoundSpares(s, false, m, x);
    case _ =>
  }

  /** A caller that begins nothing on the surface while a batch with it waits always sees it frozen exactly while
      the broker owes it a thaw, which is never more than one. */
  lemma {:induction false} ClearIsFaithful(steps: seq<Stage>, timeout: int, x: int)
    requires AllPossible(steps, timeout) && BeginsClear(steps, timeout, x)
    ensures FaithfulThroughout(steps, timeout, x) && Debt(Run(steps, timeout).state, Frozen(x)) <= 1
    decreases |steps|
  {
    if steps == [] {
      IdleFaithful(timeout, x);
    } else {
      var s := Run(Init(steps), timeout).state;
      ClearIsFaithful(Init(steps), timeout, x);
      EveryRunBalances(Init(steps), timeout, Frozen(x));
      ClearStep(s, Last(steps).op, timeout, Last(steps).at, x);
      RunFaithful(steps, timeout, x);
    }
  }

  /** A waiting batch whose gates will thaw the surface under a hold or another batch. */
  predicate Doomed(s: State, b: nat, x: int) {
    b < |s.pending| && x in Surfaces(s.pending[b]) && (Has(s, x) || InSome(RemoveAt(s.pending, b), x))
  }

  /** No weaker discipline will do: a late begin thaws the surface early, or some waiting batch will, whenever it
      resolves next. */
  lemma LateBeginThaws(s: State, req: Request, timeout: int, m: Moment, later: Moment, x: int) returns (b: nat)
    requires Inv(s) && BeginsLate(s, Begin(x, req), x)
    ensures var r := Step(s, Begin(x, req), timeout, m).state;
            ThawsEarly(s, Begin(x, req), timeout, m, x)
            || (Possible(r, Resolve(b)) && ThawsEarly(r, Resolve(b), timeout, later, x))
  {
    b :| b < |s.pending| && x in Surfaces(s.pending[b]);
    var s1 := Enroll(s, x, req, timeout, m.now);
    Enlists(s, x, req, timeout, m.now);
    LateRound(s1, m, x, b);
    var r := Evaluated(s1, m).state;
    if Doomed(r, b, x) { assert ThawsEarly(r, Resolve(b), timeout, later, x); }
  }

  lemma Enlists(s: State, x: int, req: Request, timeout: int, now: int)
    requires Inv(s)
    ensures var s1 := Enroll(s, x, req, timeout, now); Inv(s1) && Has(s1, x) && s1.pending == s.pending
  {
    EnrolledSurfaces(s.holds, x, req, timeout, now);
    assert [x][0] == x;
  }

  lemma LateRound(s: State, m: Moment, x: int, b: nat)
    requires Inv(s) && Has(s, x) && b < |s.pending| && x in Surfaces(s.pending[b])
    ensures RoundThawsEarly(s, false, m, x) || Doomed(Evaluated(s, m).state, b, x)
  {
    var list, r := HoldsToApply(s.holds, false, m), Evaluated(s, m).state;
    AppliedFrom(s.holds, false, m, x);
    if x in Surfaces(list) && s.gates > 0 && m.deferred {
      assert RemoveAt(r.pending, b)[|s.pending| - 1] == list;
    }
  }

  /** Where no gate ever returns a promise, a surface is frozen on screen iff it has a hold. */
  lemma {:induction false} FrozenIffHeld(steps: seq<Stage>, timeout: int, x: int)
    requires AllPossible(steps, timeout)
    requires forall i :: 0 <= i < |steps| ==> !steps[i].at.deferred
    ensures var r := Run(steps, timeout);
            r.state.pending == [] && (LooksFrozen(r.events, x) <==> Has(r.state, x))
  {
    if steps != [] {
      var before, last := Init(steps), Last(steps);
      FrozenIffHeld(before, timeout, x);
      EveryRunBalances(before, timeout, Frozen(x));
      StepWithoutGates(Run(before, timeout).state, last.op, timeout, last.at, x);
      FaithfulExactlyUnlessEarly(Run(before, timeout).state, last.op, timeout, last.at, Run(before, timeout).events, x);
    }
  }

  lemma Then(steps: seq<Stage>, timeout: int, op: Op, m: Moment)
    requires AllPossible(steps, timeout) && Possible(Run(steps, timeout).state, op)
    ensures var all := steps + [Stage(op, m)]; var r := Step(Run(steps, timeout).state, op, timeout, m);
            AllPossible(all, timeout) && Run(all, timeout) == Outcome(r.state, Run(steps, timeout).events + r.events)
  {
    Extend(steps, [Stage(op, m)]);
  }

  lemma OneKey(req: Request)
    ensures KeyOf([req]) == req.batchKey
  {
    var one := [req];
    assert one[1..] == [];
    assert KeyOf(one[1..]) == None;
  }

  function Lone(x: int, req: Request, timeout: int, m: Moment): Hold {
    Hold(x, [req], if timeout > 0 then By(m.now + timeout) else Never)
  }

  lemma EnrolsAlone(s: State, x: int, req: Request, timeout: int, m: Moment)
    requires s.holds == [] && req.batchKey.None?
    ensures var h := Lone(x, req, timeout, m);
            && Enrolled(s.holds, x, req, timeout, m.now) == [h]
            && HoldsToApply([h], false, m) == if req.id in m.ready then [h] else []
  {
    EnrolsFirst(x, req, timeout, m);
    OneKey(req);
    Alone(Lone(x, req, timeout, m), m);
    ReadyAlone(x, req, timeout, m);
  }

  lemma EnrolsFirst(x: int, req: Request, timeout: int, m: Moment)
    ensures Enrolled([], x, req, timeout, m.now) == [Lone(x, req, timeout, m)]
  {
    assert Surfaces([]) == [];
  }

  lemma ReadyAlone(x: int, req: Request, timeout: int, m: Moment)
    ensures Ready(Lone(x, req, timeout, m), m.ready) <==> req.id in m.ready
  {
    assert Lone(x, req, timeout, m).reqs[0] == req;
  }

  lemma WithoutItself(h: Hold)
    ensures Without([h], [h]) == []
  {
    assert Surfaces([h])[0] == h.surface;
    assert forall g :: g in [h] ==> !Outside(Surfaces([h]))(g);
    assert forall g :: g !in Without([h], [h]);
  }

  lemma BeginsAlone(s: State, x: int, req: Request, timeout: int, m: Moment)
    requires s.holds == [] && req.batchKey.None? && s.timer.None?
    ensures var r := Step(s, Begin(x, req), timeout, m).state;
            var h := Lone(x, req, timeout, m);
            && r.gates == s.gates
            && (req.id !in m.ready ==> r.holds == [h] && r.pending == s.pending)
            && (req.id in m.ready && s.gates > 0 && m.deferred ==>
                  r.holds == [] && r.pending == s.pending + [[h]] && r.timer == None)
  {
    EnrolsAlone(s, x, req, timeout, m);
    RoundAlone(Enroll(s, x, req, timeout, m.now), Lone(x, req, timeout, m), req.id in m.ready, m);
  }

  lemma RoundAlone(s: State, h: Hold, applies: bool, m: Moment)
    requires s.holds == [h] && HoldsToApply([h], false, m) == if applies then [h] else []
    ensures var r := Evaluated(s, m).state;
            && r.gates == s.gates
            && (!applies ==> r == s)
            && (applies && s.gates > 0 && m.deferred ==>
                  r.holds == [] && r.pending == s.pending + [[h]] && r.timer == None)
  {
    WithoutItself(h);
  }

  /** With a promise it can fail: the surface is held again while its earlier batch waits, and that batch's
      gates then thaw it under the new hold. */
  lemma LateGateThawsHeldSurface(x: int, a: Request, b: Request, timeout: int)
    requires a.id != b.id && a.batchKey.None? && b.batchKey.None?
    ensures var ready, waiting := Moment(0, {a.id}, true), Moment(0, {}, false);
            var steps := [Stage(OnBeforeApply, ready), Stage(Begin(x, a), ready),
                          Stage(Begin(x, b), waiting), Stage(Resolve(0), waiting)];
            AllPossible(steps, timeout)
            && Has(Run(steps, timeout).state, x) && !LooksFrozen(Run(steps, timeout).events, x)
  {
    var ready, waiting := Moment(0, {a.id}, true), Moment(0, {}, false);
    var steps := [Stage(OnBeforeApply, ready), Stage(Begin(x, a), ready),
                  Stage(Begin(x, b), waiting), Stage(Resolve(0), waiting)];
    assert steps[..1] == [] + [steps[0]] && steps[..2] == steps[..1] + [steps[1]];
    assert steps[..3] == steps[..2] + [steps[2]] && steps == steps[..3] + [steps[3]];
    Then([], timeout, OnBeforeApply, ready);
    var s1 := Run(steps[..1], timeout).state;
    Then(steps[..1], timeout, Begin(x, a), ready);
    BeginsAlone(s1, x, a, timeout, ready);
    var s2 := Run(steps[..2], timeout).state;
    Then(steps[..2], timeout, Begin(x, b), waiting);
    BeginsAlone(s2, x, b, timeout, waiting);
    var s3 := Run(steps[..3], timeout).state;
    Then(steps[..3], timeout, Resolve(0), waiting);
    assert Surfaces(s3.pending[0])[0] == x && Surfaces(s3.holds)[0] == x;
    FinishThaws(s3.pending[0], s3.afters, x);
    VerdictConcat(Run(steps[..3], timeout).events, Finish(s3.pending[0], s3.afters), x);
  }

  /** A lone, unbatched hold applies iff it is ready. */
  lemma Alone(h: Hold, m: Moment)
    requires Key(h).None?
    ensures HoldsToApply([h], false, m) == if Ready(h, m.ready) then [h] else []
  {
    var alone := [Key(h)];
    assert Init([h]) == [] && Init(alone) == [];
    assert Keys([]) == [] && [] + [Key(h)] == alone;
    assert Keys([h]) == alone;
    assert Last(alone) == Key(h);
    assert Filter([], Keyed(None)) == [] && Filter([], IsDue(false, m)) == [];
    assert Group([h], None) == [h];
    assert Picks([h], [], false, m) == [];
    assert Picks([h], alone, false, m) == Pick([h], Key(h), false, m);
  }
}
