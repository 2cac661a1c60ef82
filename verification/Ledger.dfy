/** What the broker owes: every freeze is thawed once and every requirement has one outcome. */
module Ledger {
  import opened Seqs
  import opened Broker
  import opened Batches

  /** A debt of the broker: a thaw, or an outcome for a requirement. */
  datatype Item = Frozen(surface: int) | Owed(id: nat)

  function Opens(e: Event, d: Item): nat {
    match e
    case Began(_, id) => if d == Owed(id) then 1 else 0
    case Froze(x) => if d == Frozen(x) then 1 else 0
    case _ => 0
  }

  function Closes(e: Event, d: Item): nat {
    match e
    case Thawed(x) => if d == Frozen(x) then 1 else 0
    case Applied(id) => if d == Owed(id) then 1 else 0
    case Cancelled(id) => if d == Owed(id) then 1 else 0
    case _ => 0
  }

  /** How often the log opens the debt. */
  function Opened(log: seq<Event>, d: Item): nat {
    if log == [] then 0 else Opened(Init(log), d) + Opens(Last(log), d)
  }

  function Closed(log: seq<Event>, d: Item): nat {
    if log == [] then 0 else Closed(Init(log), d) + Closes(Last(log), d)
  }

  function Outcomes(reqs: seq<Request>, d: Item): nat {
    if reqs == [] then 0 else Outcomes(Init(reqs), d) + if d == Owed(Last(reqs).id) then 1 else 0
  }

  function HoldDebt(h: Hold, d: Item): nat { (if d == Frozen(h.surface) then 1 else 0) + Outcomes(h.reqs, d) }

  function HeldDebt(holds: seq<Hold>, d: Item): nat {
    if holds == [] then 0 else HeldDebt(Init(holds), d) + HoldDebt(Last(holds), d)
  }

  function PendingDebt(pending: seq<seq<Hold>>, d: Item): nat {
    if pending == [] then 0 else PendingDebt(Init(pending), d) + HeldDebt(Last(pending), d)
  }

  function Debt(s: State, d: Item): nat { HeldDebt(s.holds, d) + PendingDebt(s.pending, d) }

  /** What a step opens is owed or closed afterwards, and nothing else is. */
  ghost predicate Balanced(s: State, r: Outcome, d: Item) {
    Debt(s, d) + Opened(r.events, d) == Debt(r.state, d) + Closed(r.events, d)
  }

  /** A surface has one hold, and occurs once in a batch. */
  ghost predicate Inv(s: State) {
    && Distinct(Surfaces(s.holds))
    && forall i :: 0 <= i < |s.pending| ==> Distinct(Surfaces(s.pending[i]))
  }

  // ----- Sums -----

  lemma {:induction false} LogConcat(a: seq<Event>, b: seq<Event>, d: Item)
    ensures Opened(a + b, d) == Opened(a, d) + Opened(b, d)
    ensures Closed(a + b, d) == Closed(a, d) + Closed(b, d)
  {
    if b == [] {
      assert a + b == a;
    } else {
      LogConcat(a, Init(b), d);
      Extend(a, b);
    }
  }

  lemma {:induction false} DebtConcat(a: seq<Hold>, b: seq<Hold>, d: Item)
    ensures HeldDebt(a + b, d) == HeldDebt(a, d) + HeldDebt(b, d)
  {
    if b == [] {
      assert a + b == a;
    } else {
      DebtConcat(a, Init(b), d);
      Extend(a, b);
    }
  }

  lemma DebtTake(holds: seq<Hold>, i: nat, d: Item)
    requires i < |holds|
    ensures HeldDebt(holds, d) == HeldDebt(RemoveAt(holds, i), d) + HoldDebt(holds[i], d)
  {
    assert holds == holds[..i] + [holds[i]] + holds[i + 1..];
    DebtConcat(holds[..i] + [holds[i]], holds[i + 1..], d);
    DebtConcat(holds[..i], holds[i + 1..], d);
    Extend(holds[..i], [holds[i]]);
  }

  lemma RemoveAtMultiset<T(!new)>(s: seq<T>, i: nat)
    requires i < |s|
    ensures multiset(RemoveAt(s, i)) == multiset(s) - multiset{s[i]}
  {
    assert s == s[..i] + [s[i]] + s[i + 1..];
  }

  lemma TakeSame<T(!new)>(a: seq<T>, b: seq<T>, i: nat)
    requires a != [] && i < |b| && b[i] == Last(a) && multiset(a) == multiset(b)
    ensures multiset(Init(a)) == multiset(RemoveAt(b, i))
  {
    RemoveAtMultiset(a, |a| - 1);
    RemoveAtMultiset(b, i);
    assert RemoveAt(a, |a| - 1) == Init(a);
  }

  lemma {:induction false} DebtPermuted(a: seq<Hold>, b: seq<Hold>, d: Item)
    requires multiset(a) == multiset(b)
    ensures HeldDebt(a, d) == HeldDebt(b, d)
  {
    if a == [] {
      assert |multiset(b)| == 0;
    } else {
      assert Last(a) in multiset(b);
      var i :| 0 <= i < |b| && b[i] == Last(a);
      TakeSame(a, b, i);
      DebtPermuted(Init(a), RemoveAt(b, i), d);
      DebtTake(b, i, d);
    }
  }

  lemma {:induction false} PendingConcat(a: seq<seq<Hold>>, b: seq<seq<Hold>>, d: Item)
    ensures PendingDebt(a + b, d) == PendingDebt(a, d) + PendingDebt(b, d)
  {
    if b == [] {
      assert a + b == a;
    } else {
      PendingConcat(a, Init(b), d);
      Extend(a, b);
    }
  }

  lemma PendingTake(pending: seq<seq<Hold>>, i: nat, d: Item)
    requires i < |pending|
    ensures PendingDebt(pending, d) == PendingDebt(RemoveAt(pending, i), d) + HeldDebt(pending[i], d)
  {
    assert pending == pending[..i] + [pending[i]] + pending[i + 1..];
    PendingConcat(pending[..i] + [pending[i]], pending[i + 1..], d);
    PendingConcat(pending[..i], pending[i + 1..], d);
    Extend(pending[..i], [pending[i]]);
  }

  // ----- What the events of each part open and close -----

  lemma {:induction false} Silent(log: seq<Event>, d: Item)
    requires forall i :: 0 <= i < |log| ==> Opens(log[i], d) == 0 && Closes(log[i], d) == 0
    ensures Opened(log, d) == 0 && Closed(log, d) == 0
  {
    if log != [] { Silent(Init(log), d); }
  }

  lemma {:induction false} Settles(reqs: seq<Request>, log: seq<Event>, d: Item)
    requires |log| == |reqs|
    requires forall i :: 0 <= i < |log| ==> log[i] == Applied(reqs[i].id) || log[i] == Cancelled(reqs[i].id)
    ensures Opened(log, d) == 0 && Closed(log, d) == Outcomes(reqs, d)
  {
    if log != [] { Settles(Init(reqs), Init(log), d); }
  }

  /** A hold's last words: its requirements' outcomes, then the thaw. */
  lemma Discharges(h: Hold, log: seq<Event>, d: Item)
    requires |log| == |h.reqs|
    requires forall i :: 0 <= i < |log| ==> log[i] == Applied(h.reqs[i].id) || log[i] == Cancelled(h.reqs[i].id)
    ensures var all := log + [Thawed(h.surface)]; Opened(all, d) == 0 && Closed(all, d) == HoldDebt(h, d)
  {
    Settles(h.reqs, log, d);
    Extend(log, [Thawed(h.surface)]);
  }

  lemma {:induction false} ReleasesClose(batch: seq<Hold>, d: Item)
    ensures Opened(Releases(batch), d) == 0 && Closed(Releases(batch), d) == HeldDebt(batch, d)
  {
    if batch != [] {
      var h := Last(batch);
      ReleasesClose(Init(batch), d);
      Discharges(h, Applications(h.reqs), d);
      LogConcat(Releases(Init(batch)), Applications(h.reqs) + [Thawed(h.surface)], d);
    }
  }

  lemma FinishCloses(batch: seq<Hold>, afters: nat, d: Item)
    ensures Opened(Finish(batch, afters), d) == 0 && Closed(Finish(batch, afters), d) == HeldDebt(batch, d)
  {
    var tail := seq(afters, i => AfterApply);
    ReleasesClose(batch, d);
    Silent(tail, d);
    LogConcat(Releases(batch), tail, d);
  }

  // ----- Each step balances -----

  lemma Partition(holds: seq<Hold>, list: seq<Hold>)
    requires Distinct(Surfaces(holds)) && Distinct(list) && forall h :: h in list ==> h in holds
    ensures multiset(holds) == multiset(Without(holds, list) + list)
    ensures Distinct(Surfaces(list)) && Distinct(Surfaces(Without(holds, list)))
  {
    var rest := Without(holds, list);
    SurfacesDistinct(holds);
    WithoutIff(holds, list);
    FilterDistinct(holds, Outside(Surfaces(list)));
    FilterSurfaces(holds, Outside(Surfaces(list)));
    DistinctConcat(rest, list);
    SameElements(holds, rest + list);
    forall i, j | 0 <= i < j < |list| ensures Surfaces(list)[i] != Surfaces(list)[j] {
      assert list[i] in list && list[j] in list && list[i] != list[j];
    }
  }

  lemma ApplySplits(holds: seq<Hold>, forced: bool, m: Moment, d: Item)
    requires Distinct(Surfaces(holds))
    ensures var list := HoldsToApply(holds, forced, m);
            && HeldDebt(holds, d) == HeldDebt(Without(holds, list), d) + HeldDebt(list, d)
            && Distinct(Surfaces(list)) && Distinct(Surfaces(Without(holds, list)))
  {
    var list := HoldsToApply(holds, forced, m);
    var rest := Without(holds, list);
    SurfacesDistinct(holds);
    AppliesExactlyTheChosen(holds, forced, m);
    Partition(holds, list);
    DebtPermuted(holds, rest + list, d);
    DebtConcat(rest, list, d);
  }

  lemma DoApplyEvents(s: State, batch: seq<Hold>, m: Moment, d: Item)
    ensures var r := DoApply(s, batch, m);
            && Opened(r.events, d) == 0
            && PendingDebt(r.state.pending, d) + Closed(r.events, d) == PendingDebt(s.pending, d) + HeldDebt(batch, d)
  {
    var asked := seq(s.gates, i => Gated(Surfaces(batch)));
    Silent(asked, d);
    if s.gates > 0 && m.deferred {
      Extend(s.pending, [batch]);
    } else {
      FinishCloses(batch, s.afters, d);
      LogConcat(asked, Finish(batch, s.afters), d);
    }
  }

  lemma RoundDebt(s: State, forced: bool, m: Moment, d: Item)
    requires Distinct(Surfaces(s.holds))
    ensures Balanced(s, Round(s, forced, m), d) && Opened(Round(s, forced, m).events, d) == 0
  {
    var list := HoldsToApply(s.holds, forced, m);
    if list != [] {
      ApplySplits(s.holds, forced, m, d);
      DoApplyEvents(s, list, m, d);
    }
  }

  lemma RoundInv(s: State, forced: bool, m: Moment)
    requires Inv(s)
    ensures Inv(Round(s, forced, m).state)
  {
    var list := HoldsToApply(s.holds, forced, m);
    if list != [] { ApplySplits(s.holds, forced, m, Frozen(0)); }
  }

  lemma RoundBalances(s: State, forced: bool, m: Moment, d: Item)
    requires Inv(s)
    ensures Balanced(s, Round(s, forced, m), d) && Opened(Round(s, forced, m).events, d) == 0
    ensures Inv(Round(s, forced, m).state)
  {
    RoundDebt(s, forced, m, d);
    RoundInv(s, forced, m);
  }

  lemma EvaluatedBalances(s: State, m: Moment, d: Item)
    requires Inv(s)
    ensures Balanced(s, Evaluated(s, m), d) && Opened(Evaluated(s, m).events, d) == 0
    ensures Inv(Evaluated(s, m).state)
  {
    if s.holds != [] { RoundBalances(s, false, m, d); }
  }

  lemma FindIt(holds: seq<Hold>, x: int)
    ensures var i := Find(holds, x); (i == -1 <==> x !in Surfaces(holds)) && (i >= 0 ==> holds[i].surface == x)
  {
  }

  lemma EnrolledSurfaces(holds: seq<Hold>, x: int, req: Request, timeout: int, now: int)
    requires Distinct(Surfaces(holds))
    ensures var r := Enrolled(holds, x, req, timeout, now);
            && Distinct(Surfaces(r))
            && Surfaces(r) == if x in Surfaces(holds) then Surfaces(holds) else Surfaces(holds) + [x]
  {
    FindIt(holds, x);
    var r := Enrolled(holds, x, req, timeout, now);
    if x in Surfaces(holds) {
      assert Surfaces(r) == Surfaces(holds);
    } else {
      assert Surfaces(r) == Surfaces(holds) + [x];
      DistinctEnds(Surfaces(holds), x);
    }
  }

  /** What beginning `req` on `x` opens. */
  function BeginOpens(s: State, x: int, req: Request, d: Item): nat {
    (if d == Owed(req.id) then 1 else 0) + if d == Frozen(x) && !Has(s, x) then 1 else 0
  }

  lemma Replaced(holds: seq<Hold>, i: nat, h: Hold, d: Item)
    requires i < |holds|
    ensures HeldDebt(holds[i := h], d) + HoldDebt(holds[i], d) == HeldDebt(holds, d) + HoldDebt(h, d)
  {
    var r := holds[i := h];
    DebtTake(holds, i, d);
    DebtTake(r, i, d);
    assert RemoveAt(r, i) == RemoveAt(holds, i);
  }

  lemma Appending(holds: seq<Hold>, h: Hold, d: Item)
    ensures HeldDebt(holds + [h], d) == HeldDebt(holds, d) + HoldDebt(h, d)
  {
    Extend(holds, [h]);
  }

  lemma OneMore(reqs: seq<Request>, req: Request, d: Item)
    ensures Outcomes(reqs + [req], d) == Outcomes(reqs, d) + if d == Owed(req.id) then 1 else 0
  {
    Extend(reqs, [req]);
  }

  lemma EnrolledDebt(s: State, x: int, req: Request, timeout: int, now: int, d: Item)
    ensures HeldDebt(Enrolled(s.holds, x, req, timeout, now), d) == HeldDebt(s.holds, d) + BeginOpens(s, x, req, d)
  {
    var i := Find(s.holds, x);
    var r := Enrolled(s.holds, x, req, timeout, now);
    FindIt(s.holds, x);
    if i == -1 {
      Appending(s.holds, Last(r), d);
      OneMore([], req, d);
      assert [] + [req] == [req];
    } else {
      Replaced(s.holds, i, r[i], d);
      OneMore(s.holds[i].reqs, req, d);
    }
  }

  lemma OpeningOpens(s: State, x: int, req: Request, d: Item)
    ensures Closed(Opening(s, x, req), d) == 0 && Opened(Opening(s, x, req), d) == BeginOpens(s, x, req, d)
  {
    if !Has(s, x) {
      assert Opening(s, x, req) == [Began(x, req.id)] + [Froze(x), Started(req.id)];
      assert Init([Froze(x), Started(req.id)]) == [Froze(x)];
      LogConcat([Began(x, req.id)], [Froze(x), Started(req.id)], d);
    } else {
      assert Opening(s, x, req) == [Began(x, req.id)];
    }
  }

  lemma BeginBalances(s: State, x: int, req: Request, timeout: int, m: Moment, d: Item)
    requires Inv(s)
    ensures var r := Step(s, Begin(x, req), timeout, m);
            Balanced(s, r, d) && Inv(r.state) && Opened(r.events, d) == BeginOpens(s, x, req, d)
  {
    var s1 := Enroll(s, x, req, timeout, m.now);
    EnrolledSurfaces(s.holds, x, req, timeout, m.now);
    EnrolledDebt(s, x, req, timeout, m.now, d);
    OpeningOpens(s, x, req, d);
    EvaluatedBalances(s1, m, d);
    LogConcat(Opening(s, x, req), Evaluated(s1, m).events, d);
  }

  lemma RemoveAtDistinct<T(!new)>(s: seq<T>, i: nat)
    requires Distinct(s) && i < |s|
    ensures Distinct(RemoveAt(s, i))
  {
  }

  lemma DroppedBalances(s: State, i: nat, d: Item)
    requires Inv(s) && i < |s.holds|
    ensures Balanced(s, Dropped(s, i), d) && Inv(Dropped(s, i).state) && Opened(Dropped(s, i).events, d) == 0
  {
    var h := s.holds[i];
    DebtTake(s.holds, i, d);
    Discharges(h, Cancellations(h.reqs), d);
    RemoveAtDistinct(Surfaces(s.holds), i);
    assert Surfaces(RemoveAt(s.holds, i)) == RemoveAt(Surfaces(s.holds), i);
  }

  lemma RenderingsSilent(reqs: seq<Request>, d: Item)
    ensures Opened(Renderings(reqs), d) == 0 && Closed(Renderings(reqs), d) == 0
  {
    Silent(Renderings(reqs), d);
  }

  lemma ReadyBalances(s: State, x: int, timeout: int, m: Moment, d: Item)
    requires Inv(s)
    ensures var r := Step(s, FrozenReady(x), timeout, m);
            Balanced(s, r, d) && Inv(r.state) && Opened(r.events, d) == 0
  {
    if Has(s, x) {
      var reqs := s.holds[Find(s.holds, x)].reqs;
      var news := Renderings(reqs);
      RenderingsSilent(reqs, d);
      EvaluatedBalances(s, m, d);
      LogConcat(news, Evaluated(s, m).events, d);
    }
  }

  lemma ResolveBalances(s: State, b: nat, timeout: int, m: Moment, d: Item)
    requires Inv(s) && b < |s.pending|
    ensures var r := Step(s, Resolve(b), timeout, m);
            Balanced(s, r, d) && Inv(r.state) && Opened(r.events, d) == 0
  {
    PendingTake(s.pending, b, d);
    FinishCloses(s.pending[b], s.afters, d);
    StillDistinct(s.pending, b);
  }

  lemma StillDistinct(pending: seq<seq<Hold>>, b: nat)
    requires b < |pending| && forall i :: 0 <= i < |pending| ==> Distinct(Surfaces(pending[i]))
    ensures forall i :: 0 <= i < |RemoveAt(pending, b)| ==> Distinct(Surfaces(RemoveAt(pending, b)[i]))
  {
    var r := RemoveAt(pending, b);
    forall i | 0 <= i < |r| ensures Distinct(Surfaces(r[i])) { assert r[i] == pending[if i < b then i else i + 1]; }
  }

  lemma CancelBalances(s: State, x: int, timeout: int, m: Moment, d: Item)
    requires Inv(s)
    ensures var r := Step(s, Cancel(x), timeout, m);
            Balanced(s, r, d) && Inv(r.state) && Opened(r.events, d) == 0
  {
    if Has(s, x) { DroppedBalances(s, Find(s.holds, x), d); }
  }

  lemma TickBalances(s: State, m: Moment, d: Item)
    requires Inv(s)
    ensures var r := Ticked(s, m);
            Balanced(s, r, d) && Inv(r.state) && Opened(r.events, d) == 0
  {
    var s0 := s.(timer := None);
    RoundBalances(s0, true, m, d);
    TickIsRound(s, m);
    TimerOwesNothing(s, s0, Round(s0, true, m), Ticked(s, m), d);
  }

  /** The timer is no debt. */
  lemma TimerOwesNothing(s: State, s0: State, r0: Outcome, r: Outcome, d: Item)
    requires s0.holds == s.holds && s0.pending == s.pending && Balanced(s0, r0, d) && Inv(r0.state)
    requires r.events == r0.events && r.state.holds == r0.state.holds && r.state.pending == r0.state.pending
    ensures Balanced(s, r, d) && Inv(r.state)
  {
  }

  /** Conservation, for every step of the protocol; only `begin` opens anything. */
  lemma StepBalances(s: State, op: Op, timeout: int, m: Moment, d: Item)
    requires Inv(s) && Possible(s, op)
    ensures var r := Step(s, op, timeout, m);
            && Balanced(s, r, d) && Inv(r.state)
            && Opened(r.events, d) == if op.Begin? then BeginOpens(s, op.surface, op.req, d) else 0
  {
    match op
    case Begin(x, req) => BeginBalances(s, x, req, timeout, m, d);
    case Evaluate => EvaluatedBalances(s, m, d);
    case Cancel(x) => CancelBalances(s, x, timeout, m, d);
    case FrozenReady(x) => ReadyBalances(s, x, timeout, m, d);
    case Tick => TickBalances(s, m, d);
    case Resolve(b) => ResolveBalances(s, b, timeout, m, d);
    case OnBeforeApply =>
    case OnAfterApply =>
  }

  // ----- Runs -----

  datatype Stage = Stage(op: Op, at: Moment)

  /** The state and the whole log after the steps, from an idle broker. */
  function Run(steps: seq<Stage>, timeout: int): Outcome
    requires AllPossible(steps, timeout)
    decreases |steps|, 1
  {
    if steps == [] then Outcome(IDLE, [])
    else
      var before := Run(Init(steps), timeout);
      var r := Step(before.state, Last(steps).op, timeout, Last(steps).at);
      Outcome(r.state, before.events + r.events)
  }

  predicate AllPossible(steps: seq<Stage>, timeout: int)
    decreases |steps|, 0
  {
    steps != [] ==>
      AllPossible(Init(steps), timeout) && Possible(Run(Init(steps), timeout).state, Last(steps).op)
  }

  /** Over every run: whatever was opened is closed or still owed, count for count. */
  lemma {:induction false} EveryRunBalances(steps: seq<Stage>, timeout: int, d: Item)
    requires AllPossible(steps, timeout)
    ensures var r := Run(steps, timeout);
            Inv(r.state) && Opened(r.events, d) == Closed(r.events, d) + Debt(r.state, d)
  {
    if steps != [] {
      EveryRunBalances(Init(steps), timeout, d);
      var before := Run(Init(steps), timeout);
      var r := Step(before.state, Last(steps).op, timeout, Last(steps).at);
      StepBalances(before.state, Last(steps).op, timeout, Last(steps).at, d);
      LogConcat(before.events, r.events, d);
    }
  }

  // ----- Readings of the ledger -----

  lemma {:induction false} FreezeTally(log: seq<Event>, x: int)
    ensures Opened(log, Frozen(x)) == multiset(log)[Froze(x)]
    ensures Closed(log, Frozen(x)) == multiset(log)[Thawed(x)]
  {
    if log != [] {
      assert log == Init(log) + [Last(log)];
      FreezeTally(Init(log), x);
    }
  }

  lemma {:induction false} OutcomeTally(log: seq<Event>, id: nat)
    ensures Closed(log, Owed(id)) == multiset(log)[Applied(id)] + multiset(log)[Cancelled(id)]
  {
    if log != [] {
      assert log == Init(log) + [Last(log)];
      OutcomeTally(Init(log), id);
    }
  }

  lemma {:induction false} OutcomesFrozen(reqs: seq<Request>, x: int)
    ensures Outcomes(reqs, Frozen(x)) == 0
  {
    if reqs != [] { OutcomesFrozen(Init(reqs), x); }
  }

  lemma {:induction false} FrozenOnce(holds: seq<Hold>, x: int)
    requires Distinct(Surfaces(holds))
    ensures HeldDebt(holds, Frozen(x)) == if x in Surfaces(holds) then 1 else 0
  {
    if holds != [] {
      var h := Last(holds);
      assert Surfaces(holds) == Surfaces(Init(holds)) + [h.surface];
      DistinctEnds(Surfaces(Init(holds)), h.surface);
      FrozenOnce(Init(holds), x);
      OutcomesFrozen(h.reqs, x);
    }
  }

  /** How many batches waiting for their gates hold the surface. */
  function Waiting(pending: seq<seq<Hold>>, x: int): nat {
    if pending == [] then 0
    else Waiting(Init(pending), x) + if x in Surfaces(Last(pending)) then 1 else 0
  }

  lemma {:induction false} FrozenWaiting(pending: seq<seq<Hold>>, x: int)
    requires forall i :: 0 <= i < |pending| ==> Distinct(Surfaces(pending[i]))
    ensures PendingDebt(pending, Frozen(x)) == Waiting(pending, x)
  {
    if pending != [] {
      FrozenWaiting(Init(pending), x);
      FrozenOnce(Last(pending), x);
    }
  }

  /** Freezes minus thaws of a surface: one if it has a hold, and one for each pending batch with it. */
  lemma FreezeLedger(steps: seq<Stage>, timeout: int, x: int)
    requires AllPossible(steps, timeout)
    ensures var r := Run(steps, timeout);
            multiset(r.events)[Froze(x)]
            == multiset(r.events)[Thawed(x)] + (if Has(r.state, x) then 1 else 0) + Waiting(r.state.pending, x)
  {
    var r := Run(steps, timeout);
    EveryRunBalances(steps, timeout, Frozen(x));
    FreezeTally(r.events, x);
    FrozenOnce(r.state.holds, x);
    FrozenWaiting(r.state.pending, x);
  }

  /** How often the callers began the requirement. */
  function Begins(steps: seq<Stage>, id: nat): nat {
    if steps == [] then 0
    else
      var op := Last(steps).op;
      Begins(Init(steps), id) + if op.Begin? && op.req.id == id then 1 else 0
  }

  lemma {:induction false} BegunCount(steps: seq<Stage>, timeout: int, id: nat)
    requires AllPossible(steps, timeout)
    ensures Opened(Run(steps, timeout).events, Owed(id)) == Begins(steps, id)
  {
    if steps != [] {
      BegunCount(Init(steps), timeout, id);
      EveryRunBalances(Init(steps), timeout, Owed(id));
      var before := Run(Init(steps), timeout);
      StepBalances(before.state, Last(steps).op, timeout, Last(steps).at, Owed(id));
      LogConcat(before.events, Step(before.state, Last(steps).op, timeout, Last(steps).at).events, Owed(id));
    }
  }

  /** Each begun requirement is in one place: held, waiting on a gate, applied once, or cancelled once. */
  lemma SingleOutcome(steps: seq<Stage>, timeout: int, id: nat)
    requires AllPossible(steps, timeout)
    ensures var r := Run(steps, timeout);
            multiset(r.events)[Applied(id)] + multiset(r.events)[Cancelled(id)]
            + HeldDebt(r.state.holds, Owed(id)) + PendingDebt(r.state.pending, Owed(id))
            == Begins(steps, id)
  {
    EveryRunBalances(steps, timeout, Owed(id));
    BegunCount(steps, timeout, id);
    OutcomeTally(Run(steps, timeout).events, id);
  }
}
