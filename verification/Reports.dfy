/** What each step of the broker reports, event for event, and whose requirements are applied or cancelled. */
module Reports {
  import opened Seqs
  import opened Broker
  import opened Batches
  import opened Ledger

  // ----- One hold, one batch -----

  /** From `k` on the hold's requirements are applied in order, and only then its surface thaws. */
  ghost predicate AppliesAt(log: seq<Event>, k: nat, h: Hold) {
    && k + |h.reqs| < |log|
    && (forall j :: 0 <= j < |h.reqs| ==> log[k + j] == Applied(h.reqs[j].id))
    && log[k + |h.reqs|] == Thawed(h.surface)
  }

  /** The events the holds of a batch take. */
  function Length(batch: seq<Hold>): nat {
    if batch == [] then 0 else Length(Init(batch)) + |Last(batch).reqs| + 1
  }

  /** From `start` on the holds are applied one after another, and the after-apply hooks run last. */
  ghost predicate Released(log: seq<Event>, start: nat, batch: seq<Hold>, afters: nat) {
    && |log| == start + Length(batch) + afters
    && (forall i :: 0 <= i < |batch| ==> AppliesAt(log, start + Length(batch[..i]), batch[i]))
    && forall k :: start + Length(batch) <= k < |log| ==> log[k] == AfterApply
  }

  lemma {:induction false} ReleasesLength(batch: seq<Hold>)
    ensures |Releases(batch)| == Length(batch)
  {
    if batch != [] { ReleasesLength(Init(batch)); }
  }

  lemma SegmentApplies(a: seq<Event>, h: Hold, b: seq<Event>)
    ensures AppliesAt(a + (Applications(h.reqs) + [Thawed(h.surface)]) + b, |a|, h)
  {
  }

  /** The last hold's events. */
  function Discharge(h: Hold): seq<Event> { Applications(h.reqs) + [Thawed(h.surface)] }

  lemma ReleasesEnd(a: seq<Event>, batch: seq<Hold>, b: seq<Event>)
    requires batch != []
    ensures a + Releases(batch) + b == a + Releases(Init(batch)) + (Discharge(Last(batch)) + b)
  {
    Regroup(a, Releases(Init(batch)), Discharge(Last(batch)), b);
  }

  lemma Regroup<T>(a: seq<T>, b: seq<T>, c: seq<T>, d: seq<T>)
    ensures a + (b + c) + d == a + b + (c + d) == (a + b) + c + d
  {
  }

  lemma {:induction false} ReleasesAt(a: seq<Event>, batch: seq<Hold>, b: seq<Event>, i: nat)
    requires i < |batch|
    ensures AppliesAt(a + Releases(batch) + b, |a| + Length(batch[..i]), batch[i])
  {
    if i == |batch| - 1 {
      LastReleased(a, batch, b);
    } else {
      ReleasesAt(a, Init(batch), Discharge(Last(batch)) + b, i);
      ReleasesEnd(a, batch, b);
      InitPrefix(batch, i);
    }
  }

  lemma InitPrefix<T>(s: seq<T>, i: nat)
    requires i + 1 < |s|
    ensures s[..i] == Init(s)[..i] && s[i] == Init(s)[i]
  {
  }

  lemma LastReleased(a: seq<Event>, batch: seq<Hold>, b: seq<Event>)
    requires batch != []
    ensures AppliesAt(a + Releases(batch) + b, |a| + Length(Init(batch)), Last(batch))
  {
    ReleasesLength(Init(batch));
    Regroup(a, Releases(Init(batch)), Discharge(Last(batch)), b);
    SegmentApplies(a + Releases(Init(batch)), Last(batch), b);
  }

  lemma FinishReleases(a: seq<Event>, batch: seq<Hold>, afters: nat)
    ensures Released(a + Finish(batch, afters), |a|, batch, afters)
  {
    var tail := seq(afters, i => AfterApply);
    var log := a + Finish(batch, afters);
    assert log == a + Releases(batch) + tail;
    ReleasesLength(batch);
    forall i | 0 <= i < |batch| ensures AppliesAt(log, |a| + Length(batch[..i]), batch[i]) { ReleasesAt(a, batch, tail, i); }
  }

  // ----- One round -----

  /** Nothing to apply, nothing said; else every gate is asked once about the batch's surfaces, and unless one of
      them returned a promise the batch is released at once. */
  ghost predicate RoundReports(batch: seq<Hold>, gates: nat, afters: nat, deferred: bool, log: seq<Event>) {
    if batch == [] then log == []
    else
      && gates <= |log|
      && (forall k :: 0 <= k < gates ==>
            log[k].Gated? && |log[k].surfaces| == |batch|
            && forall i :: 0 <= i < |batch| ==> log[k].surfaces[i] == batch[i].surface)
      && if gates > 0 && deferred then |log| == gates else Released(log, gates, batch, afters)
  }

  lemma RoundReported(s: State, forced: bool, m: Moment)
    ensures RoundReports(HoldsToApply(s.holds, forced, m), s.gates, s.afters, m.deferred, Round(s, forced, m).events)
  {
    var batch := HoldsToApply(s.holds, forced, m);
    var asked := seq(s.gates, i => Gated(Surfaces(batch)));
    if batch != [] && !(s.gates > 0 && m.deferred) { FinishReleases(asked, batch, s.afters); }
  }

  lemma EvaluatedReported(s: State, m: Moment)
    ensures RoundReports(HoldsToApply(s.holds, false, m), s.gates, s.afters, m.deferred, Evaluated(s, m).events)
  {
    RoundReported(s, false, m);
    if s.holds == [] { assert HoldsToApply([], false, m) == []; }
  }

  // ----- One step -----

  /** What the step reports. */
  ghost predicate StepReports(s: State, op: Op, timeout: int, m: Moment, log: seq<Event>)
    requires Possible(s, op)
  {
    match op
    case Begin(x, req) =>
      var n := if Has(s, x) then 1 else 3;
      && n <= |log| && log[0] == Began(x, req.id)
      && (!Has(s, x) ==> log[1] == Froze(x) && log[2] == Started(req.id))
      && RoundReports(HoldsToApply(Enrolled(s.holds, x, req, timeout, m.now), false, m), s.gates, s.afters, m.deferred, log[n..])
    case Evaluate => RoundReports(HoldsToApply(s.holds, false, m), s.gates, s.afters, m.deferred, log)
    case Tick => RoundReports(HoldsToApply(s.holds, true, m), s.gates, s.afters, m.deferred, log)
    case FrozenReady(x) =>
      && (!Has(s, x) ==> log == [])
      && forall i :: 0 <= i < |s.holds| && s.holds[i].surface == x ==>
           var reqs := s.holds[i].reqs;
           && |reqs| <= |log| && (forall j :: 0 <= j < |reqs| ==> log[j] == Rendered(reqs[j].id))
           && RoundReports(HoldsToApply(s.holds, false, m), s.gates, s.afters, m.deferred, log[|reqs|..])
    case Cancel(x) =>
      && (!Has(s, x) ==> log == [])
      && forall i :: 0 <= i < |s.holds| && s.holds[i].surface == x ==>
           var reqs := s.holds[i].reqs;
           && |log| == |reqs| + 1 && (forall j :: 0 <= j < |reqs| ==> log[j] == Cancelled(reqs[j].id))
           && log[|reqs|] == Thawed(x)
    case Resolve(b) => Released(log, 0, s.pending[b], s.afters)
    case OnBeforeApply => log == []
    case OnAfterApply => log == []
  }

  lemma HoldFound(holds: seq<Hold>, x: int, i: nat)
    requires Distinct(Surfaces(holds)) && i < |holds| && holds[i].surface == x
    ensures Find(holds, x) == i && x in Surfaces(holds)
  {
    assert Surfaces(holds)[i] == x;
    IndexOfDistinct(Surfaces(holds), i);
  }

  lemma BeginReported(s: State, x: int, req: Request, timeout: int, m: Moment)
    ensures StepReports(s, Begin(x, req), timeout, m, Step(s, Begin(x, req), timeout, m).events)
  {
    var s1 := Enroll(s, x, req, timeout, m.now);
    var log := Step(s, Begin(x, req), timeout, m).events;
    EvaluatedReported(s1, m);
    assert log[|Opening(s, x, req)|..] == Evaluated(s1, m).events;
  }

  lemma ReadyReported(s: State, x: int, timeout: int, m: Moment)
    requires Inv(s)
    ensures StepReports(s, FrozenReady(x), timeout, m, Step(s, FrozenReady(x), timeout, m).events)
  {
    var log := Step(s, FrozenReady(x), timeout, m).events;
    forall i | 0 <= i < |s.holds| && s.holds[i].surface == x
      ensures var reqs := s.holds[i].reqs;
              && |reqs| <= |log| && (forall j :: 0 <= j < |reqs| ==> log[j] == Rendered(reqs[j].id))
              && RoundReports(HoldsToApply(s.holds, false, m), s.gates, s.afters, m.deferred, log[|reqs|..])
    {
      HoldFound(s.holds, x, i);
      EvaluatedReported(s, m);
      assert log[|s.holds[i].reqs|..] == Evaluated(s, m).events;
    }
  }

  lemma CancelReported(s: State, x: int, timeout: int, m: Moment)
    requires Inv(s)
    ensures StepReports(s, Cancel(x), timeout, m, Step(s, Cancel(x), timeout, m).events)
  {
    forall i | 0 <= i < |s.holds| && s.holds[i].surface == x ensures Find(s.holds, x) == i && Has(s, x) {
      HoldFound(s.holds, x, i);
    }
  }

  /** Every step reports exactly that, in that order. */
  lemma EveryStepReports(s: State, op: Op, timeout: int, m: Moment)
    requires Inv(s) && Possible(s, op)
    ensures StepReports(s, op, timeout, m, Step(s, op, timeout, m).events)
  {
    match op
    case Begin(x, req) => BeginReported(s, x, req, timeout, m);
    case Evaluate => EvaluatedReported(s, m);
    case Tick =>
      TickIsRound(s, m);
      RoundReported(s.(timer := None), true, m);
    case FrozenReady(x) => ReadyReported(s, x, timeout, m);
    case Cancel(x) => CancelReported(s, x, timeout, m);
    case Resolve(b) =>
      FinishReleases([], s.pending[b], s.afters);
      assert [] + Finish(s.pending[b], s.afters) == Finish(s.pending[b], s.afters);
    case _ =>
  }

  /** A begin adds its requirement behind those of the surface's hold, whose deadline moves on but never back; without
      a hold it makes one, behind all others. */
  lemma BeginEnrols(holds: seq<Hold>, x: int, req: Request, timeout: int, now: int)
    requires Distinct(Surfaces(holds))
    ensures var r := Enrolled(holds, x, req, timeout, now);
            if forall i :: 0 <= i < |holds| ==> holds[i].surface != x then
              r == holds + [Hold(x, [req], if timeout > 0 then By(now + timeout) else Never)]
            else
              && |r| == |holds|
              && forall i :: 0 <= i < |holds| ==>
                   && r[i].surface == holds[i].surface
                   && (holds[i].surface != x ==> r[i] == holds[i])
                   && (holds[i].surface == x ==>
                         && r[i].reqs == holds[i].reqs + [req]
                         && r[i].deadline == if timeout > 0 && holds[i].deadline.By? && holds[i].deadline.time < now + timeout
                                             then By(now + timeout) else holds[i].deadline)
  {
    FindIt(holds, x);
    forall i | 0 <= i < |holds| && holds[i].surface == x ensures Find(holds, x) == i { HoldFound(holds, x, i); }
  }

  // ----- Applied or cancelled -----

  ghost predicate NoneCancelled(log: seq<Event>) { forall i :: 0 <= i < |log| ==> !log[i].Cancelled? }
  ghost predicate NoneApplied(log: seq<Event>) { forall i :: 0 <= i < |log| ==> !log[i].Applied? }

  lemma {:induction false} ReleasesApply(batch: seq<Hold>)
    ensures NoneCancelled(Releases(batch))
  {
    if batch != [] { ReleasesApply(Init(batch)); }
  }

  lemma FinishApplies(batch: seq<Hold>, afters: nat)
    ensures NoneCancelled(Finish(batch, afters))
  {
    ReleasesApply(batch);
  }

  lemma RoundApplies(s: State, forced: bool, m: Moment)
    ensures NoneCancelled(Round(s, forced, m).events)
  {
    FinishApplies(HoldsToApply(s.holds, forced, m), s.afters);
  }

  lemma BothApply(a: seq<Event>, b: seq<Event>)
    requires NoneCancelled(a) && NoneCancelled(b)
    ensures NoneCancelled(a + b)
  {
  }

  lemma EvaluatedApplies(s: State, m: Moment)
    ensures NoneCancelled(Evaluated(s, m).events)
  {
    RoundApplies(s, false, m);
  }

  lemma BeginApplies(s: State, x: int, req: Request, timeout: int, m: Moment)
    ensures NoneCancelled(Step(s, Begin(x, req), timeout, m).events)
  {
    var s1 := Enroll(s, x, req, timeout, m.now);
    EvaluatedApplies(s1, m);
    BothApply(Opening(s, x, req), Evaluated(s1, m).events);
  }

  lemma ReadyApplies(s: State, x: int, timeout: int, m: Moment)
    ensures NoneCancelled(Step(s, FrozenReady(x), timeout, m).events)
  {
    if Has(s, x) {
      var news := Renderings(s.holds[Find(s.holds, x)].reqs);
      var rest := Evaluated(s, m).events;
      EvaluatedApplies(s, m);
      RenderingsApply(s.holds[Find(s.holds, x)].reqs);
      BothApply(news, rest);
      assert Step(s, FrozenReady(x), timeout, m).events == news + rest;
    }
  }

  lemma RenderingsApply(reqs: seq<Request>)
    ensures NoneCancelled(Renderings(reqs))
  {
  }

  lemma TickApplies(s: State, timeout: int, m: Moment)
    requires s.timer.Some?
    ensures NoneCancelled(Step(s, Tick, timeout, m).events)
  {
    TickIsRound(s, m);
    RoundApplies(s.(timer := None), true, m);
  }

  lemma CancelCancels(s: State, x: int, timeout: int, m: Moment)
    ensures NoneApplied(Step(s, Cancel(x), timeout, m).events)
  {
  }

  /** Only a cancel cancels, and it applies nothing. */
  lemma OnlyCancelCancels(s: State, op: Op, timeout: int, m: Moment)
    requires Possible(s, op)
    ensures op.Cancel? ==> NoneApplied(Step(s, op, timeout, m).events)
    ensures !op.Cancel? ==> NoneCancelled(Step(s, op, timeout, m).events)
  {
    match op
    case Begin(x, req) => BeginApplies(s, x, req, timeout, m);
    case Evaluate => EvaluatedApplies(s, m);
    case FrozenReady(x) => ReadyApplies(s, x, timeout, m);
    case Tick => TickApplies(s, timeout, m);
    case Resolve(b) => FinishApplies(s.pending[b], s.afters);
    case Cancel(x) => CancelCancels(s, x, timeout, m);
    case _ =>
  }

  /** The holds whose requirements the step applies: those its round chooses, unless a gate returned a promise, or
      the waiting batch whose gates have settled. */
  function AppliedBy(s: State, op: Op, timeout: int, m: Moment): seq<Hold>
    requires Possible(s, op)
  {
    if op.Resolve? then s.pending[op.batch]
    else if s.gates > 0 && m.deferred then []
    else match op
      case Begin(x, req) => HoldsToApply(Enrolled(s.holds, x, req, timeout, m.now), false, m)
      case Evaluate => HoldsToApply(s.holds, false, m)
      case Tick => HoldsToApply(s.holds, true, m)
      case FrozenReady(x) => if Has(s, x) then HoldsToApply(s.holds, false, m) else []
      case _ => []
  }

  /** The hold a cancel drops. */
  function CancelledBy(s: State, op: Op): seq<Hold> {
    if op.Cancel? && Has(s, op.surface) then [s.holds[Find(s.holds, op.surface)]] else []
  }

  lemma RoundCloses(s: State, forced: bool, m: Moment, d: Item)
    ensures Closed(Round(s, forced, m).events, d)
            == if s.gates > 0 && m.deferred then 0 else HeldDebt(HoldsToApply(s.holds, forced, m), d)
  {
    var list := HoldsToApply(s.holds, forced, m);
    if list != [] {
      DoApplyEvents(s, list, m, d);
      if s.gates > 0 && m.deferred { Extend(s.pending, [list]); }
    }
  }

  lemma EvaluatedCloses(s: State, m: Moment, d: Item)
    ensures Closed(Evaluated(s, m).events, d)
            == if s.gates > 0 && m.deferred then 0 else HeldDebt(HoldsToApply(s.holds, false, m), d)
  {
    RoundCloses(s, false, m, d);
    if s.holds == [] { assert HoldsToApply([], false, m) == []; }
  }

  lemma CancelCloses(s: State, x: int, timeout: int, m: Moment, d: Item)
    ensures Closed(Step(s, Cancel(x), timeout, m).events, d) == HeldDebt(CancelledBy(s, Cancel(x)), d)
  {
    if Has(s, x) {
      var h := s.holds[Find(s.holds, x)];
      Discharges(h, Cancellations(h.reqs), d);
      Appending([], h, d);
      assert [] + [h] == [h];
    }
  }

  lemma StepCloses(s: State, op: Op, timeout: int, m: Moment, d: Item)
    requires Possible(s, op)
    ensures Closed(Step(s, op, timeout, m).events, d)
            == HeldDebt(AppliedBy(s, op, timeout, m), d) + HeldDebt(CancelledBy(s, op), d)
  {
    match op
    case Begin(x, req) =>
      var s1 := Enroll(s, x, req, timeout, m.now);
      OpeningOpens(s, x, req, d);
      EvaluatedCloses(s1, m, d);
      LogConcat(Opening(s, x, req), Evaluated(s1, m).events, d);
    case Evaluate => EvaluatedCloses(s, m, d);
    case FrozenReady(x) =>
      if Has(s, x) {
        var news := Renderings(s.holds[Find(s.holds, x)].reqs);
        RenderingsSilent(s.holds[Find(s.holds, x)].reqs, d);
        EvaluatedCloses(s, m, d);
        LogConcat(news, Evaluated(s, m).events, d);
      }
    case Tick => TickIsRound(s, m); RoundCloses(s.(timer := None), true, m, d);
    case Cancel(x) => CancelCloses(s, x, timeout, m, d);
    case Resolve(b) => FinishCloses(s.pending[b], s.afters, d);
    case _ =>
  }

  /** A requirement is applied once for every time it is on a hold the step applies, and cancelled once for every time
      it is on the hold a cancel drops. */
  lemma StepOutcomes(s: State, op: Op, timeout: int, m: Moment, id: nat)
    requires Possible(s, op)
    ensures var log := Step(s, op, timeout, m).events;
            && multiset(log)[Applied(id)] == HeldDebt(AppliedBy(s, op, timeout, m), Owed(id))
            && multiset(log)[Cancelled(id)] == HeldDebt(CancelledBy(s, op), Owed(id))
  {
    var log := Step(s, op, timeout, m).events;
    StepCloses(s, op, timeout, m, Owed(id));
    OutcomeTally(log, id);
    OnlyCancelCancels(s, op, timeout, m);
    if op.Cancel? { assert Applied(id) !in log; } else { assert Cancelled(id) !in log; }
  }

  // ----- Over runs -----

  /** How often the run's rounds and settled gates took the requirement off the books. */
  function TimesApplied(steps: seq<Stage>, timeout: int, id: nat): nat
    requires AllPossible(steps, timeout)
    decreases |steps|
  {
    if steps == [] then 0
    else
      var s := Run(Init(steps), timeout).state;
      TimesApplied(Init(steps), timeout, id) + HeldDebt(AppliedBy(s, Last(steps).op, timeout, Last(steps).at), Owed(id))
  }

  /** How often its surface was cancelled while it was held. */
  function TimesCancelled(steps: seq<Stage>, timeout: int, id: nat): nat
    requires AllPossible(steps, timeout)
    decreases |steps|
  {
    if steps == [] then 0
    else
      TimesCancelled(Init(steps), timeout, id)
      + HeldDebt(CancelledBy(Run(Init(steps), timeout).state, Last(steps).op), Owed(id))
  }

  lemma {:induction false} EveryRunOutcomes(steps: seq<Stage>, timeout: int, id: nat)
    requires AllPossible(steps, timeout)
    ensures var log := Run(steps, timeout).events;
            && multiset(log)[Applied(id)] == TimesApplied(steps, timeout, id)
            && multiset(log)[Cancelled(id)] == TimesCancelled(steps, timeout, id)
    decreases |steps|
  {
    if steps != [] {
      EveryRunOutcomes(Init(steps), timeout, id);
      StepOutcomes(Run(Init(steps), timeout).state, Last(steps).op, timeout, Last(steps).at, id);
    }
  }

  // ----- The order of a batch -----

  /** Keys stand in the order in which the holds first name them. */
  lemma {:induction false} KeysInOrder(holds: seq<Hold>, a: nat, b: nat) returns (i: nat)
    requires a < b < |Keys(holds)|
    ensures i < |holds| && Key(holds[i]) == Keys(holds)[a] && forall j :: 0 <= j <= i ==> Key(holds[j]) != Keys(holds)[b]
  {
    var before := Init(holds);
    var ks := Keys(before);
    if b < |ks| {
      i := KeysInOrder(before, a, b);
      assert forall j :: 0 <= j < |before| ==> holds[j] == before[j];
    } else {
      KeysListed(before);
      assert ks[a] in ks;
      var h :| h in before && Key(h) == ks[a];
      i :| 0 <= i < |before| && before[i] == h;
      forall j | 0 <= j <= i ensures Key(holds[j]) != Keys(holds)[b] { assert before[j] in before && holds[j] == before[j]; }
    }
  }

  lemma {:induction false} FilterOrder<T(!new)>(s: seq<T>, p: T -> bool, a: nat, b: nat) returns (i: nat, j: nat)
    requires a < b < |Filter(s, p)|
    ensures i < j < |s| && s[i] == Filter(s, p)[a] && s[j] == Filter(s, p)[b]
  {
    var f := Filter(Init(s), p);
    assert s == Init(s) + [Last(s)];
    if b < |f| {
      i, j := FilterOrder(Init(s), p, a, b);
    } else {
      j := |s| - 1;
      assert f[a] in f;
      i :| 0 <= i < |Init(s)| && Init(s)[i] == f[a];
    }
  }

  /** A picked group keeps the insertion order. */
  lemma PickOrder(holds: seq<Hold>, key: Option<string>, forced: bool, m: Moment, a: nat, b: nat) returns (i: nat, j: nat)
    requires var l := Pick(Group(holds, key), key, forced, m); a < b < |l|
    ensures var l := Pick(Group(holds, key), key, forced, m); i < j < |holds| && holds[i] == l[a] && holds[j] == l[b]
  {
    if key.None? {
      var c, d := FilterOrder(Group(holds, key), IsDue(forced, m), a, b);
      i, j := FilterOrder(holds, Keyed(key), c, d);
    } else {
      i, j := FilterOrder(holds, Keyed(key), a, b);
    }
  }

  /** Of two holds that apply together, the one whose key was first named first comes first; under one key, the
      one begun first. */
  lemma {:induction false} PicksOrder(holds: seq<Hold>, keys: seq<Option<string>>, forced: bool, m: Moment, a: nat, b: nat)
    returns (i: nat, j: nat)
    requires Distinct(keys) && a < b < |Picks(holds, keys, forced, m)|
    ensures var l := Picks(holds, keys, forced, m);
            && i < |holds| && j < |holds| && holds[i] == l[a] && holds[j] == l[b]
            && Key(l[a]) in keys && Key(l[b]) in keys && IndexOf(keys, Key(l[a])) <= IndexOf(keys, Key(l[b]))
            && (Key(l[a]) == Key(l[b]) ==> i < j)
  {
    var before, k := Init(keys), Last(keys);
    var l := Picks(holds, keys, forced, m);
    var f, g := PicksIs(holds, keys, forced, m);
    if b < |f| {
      i, j := PicksOrder(holds, before, forced, m, a, b);
      IndexOfPrefix(before, [k], Key(l[a]));
      IndexOfPrefix(before, [k], Key(l[b]));
    } else if a >= |f| {
      i, j := PicksWithin(holds, keys, forced, m, a - |f|, b - |f|);
      assert l[a] == g[a - |f|] && l[b] == g[b - |f|];
    } else {
      i, j := PicksAcross(holds, keys, forced, m, a, b);
    }
  }

  /** Two of the last group. */
  lemma PicksWithin(holds: seq<Hold>, keys: seq<Option<string>>, forced: bool, m: Moment, a: nat, b: nat)
    returns (i: nat, j: nat)
    requires keys != []
    requires a < b < |Pick(Group(holds, Last(keys)), Last(keys), forced, m)|
    ensures var g := Pick(Group(holds, Last(keys)), Last(keys), forced, m);
            && i < j < |holds| && holds[i] == g[a] && holds[j] == g[b]
            && Key(g[a]) == Last(keys) && Key(g[b]) == Last(keys) && Last(keys) in keys
  {
    var g := Pick(Group(holds, Last(keys)), Last(keys), forced, m);
    i, j := PickOrder(holds, Last(keys), forced, m, a, b);
    assert g[a] in g && g[b] in g;
    PickedKey(holds, Last(keys), forced, m, g[a]);
    PickedKey(holds, Last(keys), forced, m, g[b]);
  }

  lemma PickedKey(holds: seq<Hold>, k: Option<string>, forced: bool, m: Moment, h: Hold)
    requires h in Pick(Group(holds, k), k, forced, m)
    ensures h in holds && Key(h) == k
  {
    PickedIff(holds, k, forced, m, h);
  }

  lemma {:induction false} PickedFrom(holds: seq<Hold>, keys: seq<Option<string>>, forced: bool, m: Moment, h: Hold)
    requires h in Picks(holds, keys, forced, m)
    ensures h in holds && Key(h) in keys
  {
    var before, k := Init(keys), Last(keys);
    var f, g := PicksIs(holds, keys, forced, m);
    if h in f {
      PickedFrom(holds, before, forced, m, h);
      assert keys == before + [k];
    } else {
      PickedKey(holds, k, forced, m, h);
    }
  }

  lemma Ends<T>(s: seq<T>)
    requires s != []
    ensures s == Init(s) + [Last(s)]
  {
  }

  lemma PicksIs(holds: seq<Hold>, keys: seq<Option<string>>, forced: bool, m: Moment) returns (f: seq<Hold>, g: seq<Hold>)
    requires keys != []
    ensures f == Picks(holds, Init(keys), forced, m) && g == Pick(Group(holds, Last(keys)), Last(keys), forced, m)
    ensures Picks(holds, keys, forced, m) == f + g && keys == Init(keys) + [Last(keys)]
  {
    Ends(keys);
    f, g := Picks(holds, Init(keys), forced, m), Pick(Group(holds, Last(keys)), Last(keys), forced, m);
  }

  lemma PicksAcross(holds: seq<Hold>, keys: seq<Option<string>>, forced: bool, m: Moment, a: nat, b: nat)
    returns (i: nat, j: nat)
    requires keys != [] && Distinct(keys) && a < |Picks(holds, Init(keys), forced, m)| <= b < |Picks(holds, keys, forced, m)|
    ensures var l := Picks(holds, keys, forced, m);
            && i < |holds| && j < |holds| && holds[i] == l[a] && holds[j] == l[b]
            && Key(l[a]) in keys && Key(l[b]) in keys && IndexOf(keys, Key(l[a])) <= IndexOf(keys, Key(l[b]))
            && Key(l[a]) != Key(l[b])
  {
    var before, k := Init(keys), Last(keys);
    var f, g := Picks(holds, before, forced, m), Pick(Group(holds, k), k, forced, m);
    assert f[a] in f && g[b - |f|] in g;
    PickedFrom(holds, before, forced, m, f[a]);
    PickedKey(holds, k, forced, m, g[b - |f|]);
    KeysAcross(keys, Key(f[a]), k);
    i :| 0 <= i < |holds| && holds[i] == f[a];
    j :| 0 <= j < |holds| && holds[j] == g[b - |f|];
  }

  lemma KeysAcross(keys: seq<Option<string>>, a: Option<string>, b: Option<string>)
    requires keys != [] && Distinct(keys) && a in Init(keys) && b == Last(keys)
    ensures a in keys && b in keys && a != b && IndexOf(keys, a) <= IndexOf(keys, b)
  {
    var before := Init(keys);
    assert keys == before + [b];
    IndexOfPrefix(before, [b], a);
    IndexOfDistinct(keys, |keys| - 1);
    DistinctEnds(before, b);
  }

  /** The batch of a round, in order: a hold comes before another if its key was named first, by the holds in the
      order they were begun, or, under one key, if it was begun first. */
  lemma AppliesInOrder(holds: seq<Hold>, forced: bool, m: Moment, a: nat, b: nat) returns (i: nat, j: nat, first: nat)
    requires a < b < |HoldsToApply(holds, forced, m)|
    ensures var l := HoldsToApply(holds, forced, m);
            && i < |holds| && j < |holds| && holds[i] == l[a] && holds[j] == l[b] && first < |holds|
            && if Key(l[a]) == Key(l[b]) then i < j
               else Key(holds[first]) == Key(l[a]) && forall k :: 0 <= k <= first ==> Key(holds[k]) != Key(l[b])
  {
    var l, keys := HoldsToApply(holds, forced, m), Keys(holds);
    KeysListed(holds);
    i, j := PicksOrder(holds, keys, forced, m, a, b);
    first := i;
    if Key(l[a]) != Key(l[b]) {
      var p, q := IndexOf(keys, Key(l[a])), IndexOf(keys, Key(l[b]));
      assert keys[p] == Key(l[a]) && keys[q] == Key(l[b]);
      first := KeysInOrder(holds, p, q);
    }
  }

  // ----- What the rule says of requirements -----

  /** The key of a hold is the first one its requirements name. */
  lemma {:induction false} KeyIsFirst(reqs: seq<Request>, k: string)
    ensures KeyOf(reqs) == Some(k)
            <==> exists i :: 0 <= i < |reqs| && reqs[i].batchKey == Some(k) && forall j :: 0 <= j < i ==> reqs[j].batchKey == None
    ensures KeyOf(reqs) == None <==> forall i :: 0 <= i < |reqs| ==> reqs[i].batchKey == None
  {
    if reqs != [] {
      var rest := reqs[1..];
      KeyIsFirst(rest, k);
      assert forall i :: 0 <= i < |rest| ==> rest[i] == reqs[i + 1];
      if reqs[0].batchKey == None {
        if KeyOf(rest) == Some(k) {
          var i :| 0 <= i < |rest| && rest[i].batchKey == Some(k) && forall j :: 0 <= j < i ==> rest[j].batchKey == None;
          assert reqs[i + 1].batchKey == Some(k) && forall j :: 0 <= j < i + 1 ==> reqs[j].batchKey == None;
        }
        if i :| 0 <= i < |reqs| && reqs[i].batchKey == Some(k) && forall j :: 0 <= j < i ==> reqs[j].batchKey == None {
          assert rest[i - 1].batchKey == Some(k) && forall j :: 0 <= j < i - 1 ==> rest[j].batchKey == reqs[j + 1].batchKey;
        }
      }
    }
  }

  /** All its requirements answer ready. */
  ghost predicate AnswersReady(h: Hold, ready: set<nat>) { forall i :: 0 <= i < |h.reqs| ==> h.reqs[i].id in ready }

  /** Its deadline is not in the future. */
  ghost predicate Elapsed(h: Hold, now: int) { exists t :: h.deadline == By(t) && t <= now }

  /** A round takes a hold that names no key when it is ready, or elapsed if forced; any other when all holds of its
      key are ready, or one of them has elapsed if forced. */
  lemma RoundTakes(holds: seq<Hold>, forced: bool, m: Moment, h: Hold)
    requires Distinct(holds)
    ensures h in HoldsToApply(holds, forced, m)
            <==> h in holds
                 && if Key(h).None? then AnswersReady(h, m.ready) || (forced && Elapsed(h, m.now))
                    else (forall g :: g in holds && Key(g) == Key(h) ==> AnswersReady(g, m.ready))
                         || (forced && exists g :: g in holds && Key(g) == Key(h) && Elapsed(g, m.now))
  {
    AppliesExactlyTheChosen(holds, forced, m);
    var group := Group(holds, Key(h));
    assert forall g :: g in group <==> g in holds && Key(g) == Key(h);
    GroupReady(group, m.ready);
    GroupElapsed(group, m.now);
    AlikeReady(h, m);
  }

  lemma AlikeReady(h: Hold, m: Moment)
    ensures Ready(h, m.ready) <==> AnswersReady(h, m.ready)
    ensures Expired(h, m.now) <==> Elapsed(h, m.now)
  {
  }

  lemma GroupReady(group: seq<Hold>, ready: set<nat>)
    ensures AllReady(group, ready) <==> forall g :: g in group ==> AnswersReady(g, ready)
  {
    if forall g :: g in group ==> AnswersReady(g, ready) {
      forall i | 0 <= i < |group| ensures Ready(group[i], ready) { assert AnswersReady(group[i], ready); }
    }
  }

  lemma GroupElapsed(group: seq<Hold>, now: int)
    ensures AnyExpired(group, now) <==> exists g :: g in group && Elapsed(g, now)
  {
    if AnyExpired(group, now) {
      var i :| 0 <= i < |group| && Expired(group[i], now);
      assert Elapsed(group[i], now);
    }
  }
}
