/** `createSurfaceTransactionBroker`: the broker's closure state and the loops over it. */
module SurfaceTransactions {
  import opened Seqs
  import opened Numbers
  import opened Broker
  import opened Batches
  import opened Ledger

  // ----- Deleting from the hold table -----

  /** Deleting one more surface. */
  lemma DeleteOne(all: seq<Hold>, done: seq<int>, x: int)
    requires Distinct(Surfaces(all))
    ensures var holds := Filter(all, Outside(done));
            var i := Find(holds, x);
            Filter(all, Outside(done + [x])) == if i == -1 then holds else RemoveAt(holds, i)
  {
    var holds := Filter(all, Outside(done));
    var i := Find(holds, x);
    FilterSurfaces(all, Outside(done));
    FilterFilter(all, Outside(done), Outside(done + [x]));
    FindIt(holds, x);
    if i == -1 {
      forall h | h in holds ensures Outside(done + [x])(h) { SurfaceOf(holds, h); }
      FilterAll(holds, Outside(done + [x]));
    } else {
      SplitAt(holds, i, done);
    }
  }

  lemma DeleteNone(all: seq<Hold>, none: seq<Hold>)
    requires none == []
    ensures Without(all, none) == all
  {
    FilterAll(all, Outside(Surfaces(none)));
  }

  lemma DeleteNext(all: seq<Hold>, batch: seq<Hold>, i: nat)
    requires Distinct(Surfaces(all)) && i < |batch|
    ensures var rest := Without(all, batch[..i]);
            var j := Find(rest, batch[i].surface);
            Without(all, batch[..i + 1]) == if j == -1 then rest else RemoveAt(rest, j)
  {
    DeleteOne(all, Surfaces(batch[..i]), batch[i].surface);
    assert Surfaces(batch[..i + 1]) == Surfaces(batch[..i]) + [batch[i].surface];
  }

  lemma SplitAt(holds: seq<Hold>, i: nat, done: seq<int>)
    requires Distinct(Surfaces(holds)) && i < |holds|
    requires forall h :: h in holds ==> h.surface !in done
    ensures Filter(holds, Outside(done + [holds[i].surface])) == RemoveAt(holds, i)
  {
    var p := Outside(done + [holds[i].surface]);
    forall j | 0 <= j < |holds| && j != i ensures p(holds[j]) { Apart(holds, j, i, done); }
    FilterDrops(holds, i, p);
  }

  lemma Apart(holds: seq<Hold>, j: nat, i: nat, done: seq<int>)
    requires Distinct(Surfaces(holds)) && i < |holds| && j < |holds| && i != j && holds[j].surface !in done
    ensures Outside(done + [holds[i].surface])(holds[j])
  {
    assert Surfaces(holds)[i] == holds[i].surface && Surfaces(holds)[j] == holds[j].surface;
  }

  class TransactionBroker {
    const timeout: int
    var holds: seq<Hold>
    var timer: Option<int>
    var pending: seq<seq<Hold>>
    var gates: nat
    var afters: nat
    ghost var log: seq<Event>

    function Abs(): State reads this { State(holds, timer, pending, gates, afters) }

    /** The table is well formed and the log accounts for every debt. */
    ghost predicate Valid() reads this {
      Inv(Abs()) && forall d :: Opened(log, d) == Closed(log, d) + Debt(Abs(), d)
    }

    constructor (timeout: int)
      ensures Valid() && Abs() == IDLE && log == [] && this.timeout == timeout
    {
      this.timeout := timeout;
      holds, timer, pending, gates, afters, log := [], None, [], 0, 0, [];
    }

    /** `holdReady`: the first unready requirement decides. */
    method HoldReady(h: Hold, ready: set<nat>) returns (r: bool)
      ensures r == Ready(h, ready)
    {
      for i := 0 to |h.reqs|
        invariant forall j :: 0 <= j < i ==> h.reqs[j].id in ready
      {
        if h.reqs[i].id !in ready { return false; }
      }
      return true;
    }

    method BatchKey(h: Hold) returns (key: Option<string>)
      ensures key == Key(h)
    {
      var i := 0;
      while i < |h.reqs|
        invariant 0 <= i <= |h.reqs| && KeyOf(h.reqs) == KeyOf(h.reqs[i..])
      {
        if h.reqs[i].batchKey.Some? { return h.reqs[i].batchKey; }
        i := i + 1;
      }
      return None;
    }

    /** The holds by batch key, and the keys in the order they turn up. */
    method Grouped() returns (groups: map<Option<string>, seq<Hold>>, order: seq<Option<string>>)
      ensures order == Keys(holds)
      ensures forall k :: k in order ==> k in groups && groups[k] == Group(holds, k)
    {
      groups, order := map[], [];
      for i := 0 to |holds|
        invariant ByKey(groups, order, holds[..i])
      {
        var key := BatchKey(holds[i]);
        ByKeyNext(groups, order, holds, i);
        if key in groups {
          groups := groups[key := groups[key] + [holds[i]]];
        } else {
          groups, order := groups[key := [holds[i]]], order + [key];
        }
      }
      assert holds[..|holds|] == holds;
    }

    /** `holdsToApply`: let each group decide. */
    method Decide(forced: bool, m: Moment) returns (apply: seq<Hold>)
      ensures apply == HoldsToApply(holds, forced, m)
    {
      var groups, order := Grouped();
      apply := [];
      for i := 0 to |order|
        invariant apply == Picks(holds, order[..i], forced, m)
      {
        PicksNext(holds, order, i, forced, m);
        var picked := PickFrom(groups[order[i]], order[i], forced, m);
        apply := apply + picked;
      }
      assert order[..|order|] == order;
    }

    /** An independent hold decides for itself; a batch needs every member, or one deadline elapsed. */
    method PickFrom(group: seq<Hold>, key: Option<string>, forced: bool, m: Moment) returns (r: seq<Hold>)
      ensures r == Pick(group, key, forced, m)
    {
      r := [];
      if key.None? {
        for i := 0 to |group|
          invariant r == Filter(group[..i], IsDue(forced, m))
        {
          assert Init(group[..i + 1]) == group[..i];
          var ready := HoldReady(group[i], m.ready);
          if ready || (forced && Expired(group[i], m.now)) { r := r + [group[i]]; }
        }
        assert group[..|group|] == group;
      } else {
        var all, any := true, false;
        for i := 0 to |group|
          invariant all <==> AllReady(group[..i], m.ready)
          invariant any <==> AnyExpired(group[..i], m.now)
        {
          var ready := HoldReady(group[i], m.ready);
          assert group[..i + 1] == group[..i] + [group[i]];
          ghost var was, now := group[..i], group[..i + 1];
          assert now[i] == group[i] && forall j :: 0 <= j < i ==> now[j] == was[j];
          all, any := all && ready, any || Expired(group[i], m.now);
        }
        assert group[..|group|] == group;
        if all || (forced && any) { r := group; }
      }
    }

    /** `armTimer`, unless one is armed. */
    method ArmTimer(now: int)
      modifies this`timer
      ensures Abs() == Armed(old(Abs()), now)
    {
      if timer.Some? { return; }
      var earliest := Never;
      for i := 0 to |holds|
        invariant earliest == Earliest(holds[..i]) && timer == old(timer)
      {
        assert Init(holds[..i + 1]) == holds[..i];
        var d := holds[i].deadline;
        if d.By? && (earliest.Never? || d.time < earliest.time) { earliest := d; }
      }
      assert holds[..|holds|] == holds;
      if earliest.By? { timer := Some(now + Max(1, earliest.time - now)); }
    }

    /** `holds.delete`. */
    method Delete(x: int)
      modifies this`holds
      ensures holds == var i := Find(old(holds), x); if i == -1 then old(holds) else RemoveAt(old(holds), i)
    {
      var i := Find(holds, x);
      if i != -1 { holds := RemoveAt(holds, i); }
    }

    /** `finish`: every requirement applies before its surface thaws, and the hooks run last. */
    method Release(batch: seq<Hold>) returns (events: seq<Event>)
      ensures events == Finish(batch, afters)
    {
      events := [];
      for i := 0 to |batch|
        invariant events == Releases(batch[..i])
      {
        assert Init(batch[..i + 1]) == batch[..i];
        ghost var start := events;
        for j := 0 to |batch[i].reqs|
          invariant events == start + Applications(batch[i].reqs[..j])
        {
          events := events + [Applied(batch[i].reqs[j].id)];
          assert Applications(batch[i].reqs[..j + 1])
              == Applications(batch[i].reqs[..j]) + [Applied(batch[i].reqs[j].id)];
        }
        assert batch[i].reqs[..|batch[i].reqs|] == batch[i].reqs;
        events := events + [Thawed(batch[i].surface)];
        assert events == start + (Applications(batch[i].reqs) + [Thawed(batch[i].surface)]);
      }
      assert batch[..|batch|] == batch;
      events := events + seq(afters, i => AfterApply);
    }

    method DeleteAll(batch: seq<Hold>)
      requires Distinct(Surfaces(holds))
      modifies this`holds
      ensures holds == Without(old(holds), batch)
    {
      ghost var all := holds;
      DeleteNone(all, batch[..0]);
      for i := 0 to |batch|
        invariant holds == Without(all, batch[..i])
      {
        DeleteNext(all, batch, i);
        Delete(batch[i].surface);
      }
      assert batch[..|batch|] == batch;
    }

    /** `doApply`: off the books first, then the gates, then the effects. */
    method Apply(batch: seq<Hold>, m: Moment) returns (events: seq<Event>)
      requires Inv(Abs())
      modifies this`holds, this`timer, this`pending
      ensures Abs() == DoApply(old(Abs()), batch, m).state
      ensures events == DoApply(old(Abs()), batch, m).events
    {
      DeleteAll(batch);
      if holds == [] { timer := None; }
      events := seq(gates, i => Gated(Surfaces(batch)));
      if gates > 0 && m.deferred {
        pending := pending + [batch];
      } else {
        var rest := Release(batch);
        events := events + rest;
      }
    }

    method Round(forced: bool, m: Moment) returns (events: seq<Event>)
      requires Inv(Abs())
      modifies this`holds, this`timer, this`pending
      ensures Abs() == Broker.Round(old(Abs()), forced, m).state
      ensures events == Broker.Round(old(Abs()), forced, m).events
    {
      events := [];
      var batch := Decide(forced, m);
      if batch != [] { events := Apply(batch, m); }
    }

    method Reevaluate(m: Moment) returns (events: seq<Event>)
      requires Inv(Abs())
      modifies this`holds, this`timer, this`pending
      ensures Abs() == Evaluated(old(Abs()), m).state && events == Evaluated(old(Abs()), m).events
    {
      if holds == [] {
        timer, events := None, [];
      } else {
        events := Round(false, m);
      }
    }

    /** The log takes the step's events; conservation keeps the object valid. */
    ghost method Record(op: Op, m: Moment, before: State, events: seq<Event>)
      requires Inv(before) && Possible(before, op)
      requires forall d :: Opened(log, d) == Closed(log, d) + Debt(before, d)
      requires Abs() == Step(before, op, timeout, m).state && events == Step(before, op, timeout, m).events
      modifies this`log
      ensures Valid() && log == old(log) + events
    {
      log := log + events;
      StepBalances(before, op, timeout, m, Frozen(0));
      forall d ensures Opened(log, d) == Closed(log, d) + Debt(Abs(), d) {
        StepBalances(before, op, timeout, m, d);
        LogConcat(old(log), events, d);
      }
    }

    /** A new hold, or a later deadline for the one there; then the requirement goes on it. */
    method Enrol(x: int, req: Request, now: int)
      modifies this`holds
      ensures holds == Enrolled(old(holds), x, req, timeout, now)
    {
      var i := Find(holds, x);
      FindIt(holds, x);
      if i == -1 {
        i := |holds|;
        holds := holds + [Hold(x, [], if timeout > 0 then By(now + timeout) else Never)];
      } else if timeout > 0 && holds[i].deadline.By? && now + timeout > holds[i].deadline.time {
        holds := holds[i := holds[i].(deadline := By(now + timeout))];
      }
      assert [] + [req] == [req];
      holds := holds[i := holds[i].(reqs := holds[i].reqs + [req])];
    }

    /** The requirement goes on its hold; a new hold freezes the surface; a timer is armed. */
    method Open(x: int, req: Request, now: int) returns (events: seq<Event>)
      modifies this`holds, this`timer
      ensures Abs() == Enroll(old(Abs()), x, req, timeout, now) && events == Opening(old(Abs()), x, req)
    {
      var known := Find(holds, x) != -1;
      events := [Began(x, req.id)];
      Enrol(x, req, now);
      if !known { events := events + [Froze(x), Started(req.id)]; }
      ArmTimer(now);
    }

    method Begin(x: int, req: Request, m: Moment) returns (events: seq<Event>)
      requires Valid()
      modifies this
      ensures Valid() && log == old(log) + events
      ensures var r := Step(old(Abs()), Op.Begin(x, req), timeout, m); Abs() == r.state && events == r.events
    {
      ghost var before := Abs();
      EnrolledSurfaces(holds, x, req, timeout, m.now);
      events := Open(x, req, m.now);
      var rest := Reevaluate(m);
      events := events + rest;
      Record(Op.Begin(x, req), m, before, events);
    }

    method Evaluate(m: Moment) returns (events: seq<Event>)
      requires Valid()
      modifies this
      ensures Valid() && log == old(log) + events
      ensures var r := Step(old(Abs()), Op.Evaluate, timeout, m); Abs() == r.state && events == r.events
    {
      ghost var before := Abs();
      events := Reevaluate(m);
      Record(Op.Evaluate, m, before, events);
    }

    method Cancel(x: int, m: Moment) returns (events: seq<Event>)
      requires Valid()
      modifies this
      ensures Valid() && log == old(log) + events
      ensures var r := Step(old(Abs()), Op.Cancel(x), timeout, m); Abs() == r.state && events == r.events
    {
      ghost var before := Abs();
      events := [];
      var i := Find(holds, x);
      FindIt(holds, x);
      if i != -1 {
        var h := holds[i];
        Delete(x);
        for j := 0 to |h.reqs|
          invariant events == Cancellations(h.reqs[..j])
        {
          events := events + [Cancelled(h.reqs[j].id)];
        }
        assert h.reqs[..|h.reqs|] == h.reqs;
        events := events + [Thawed(x)];
        if holds == [] { timer := None; }
      }
      Record(Op.Cancel(x), m, before, events);
    }

    /** The compositor's signal: hooks first, then a fresh look at every hold. */
    method FrozenReady(x: int, m: Moment) returns (events: seq<Event>)
      requires Valid()
      modifies this
      ensures Valid() && log == old(log) + events
      ensures var r := Step(old(Abs()), Op.FrozenReady(x), timeout, m); Abs() == r.state && events == r.events
    {
      ghost var before := Abs();
      events := [];
      var i := Find(holds, x);
      FindIt(holds, x);
      if i != -1 {
        var reqs := holds[i].reqs;
        for j := 0 to |reqs|
          invariant events == Renderings(reqs[..j])
        {
          events := events + [Rendered(reqs[j].id)];
        }
        assert reqs[..|reqs|] == reqs;
        var rest := Reevaluate(m);
        events := events + rest;
      }
      Record(Op.FrozenReady(x), m, before, events);
    }

    /** The timer's callback. */
    method Tick(m: Moment) returns (events: seq<Event>)
      requires Valid() && timer.Some?
      modifies this
      ensures Valid() && log == old(log) + events
      ensures var r := Step(old(Abs()), Op.Tick, timeout, m); Abs() == r.state && events == r.events
    {
      ghost var before := Abs();
      timer, events := None, [];
      if holds != [] {
        events := Round(true, m);
        if holds != [] { ArmTimer(m.now); }
      }
      Record(Op.Tick, m, before, events);
    }

    /** A waiting batch's gates are all settled. */
    method Resolve(b: nat, m: Moment) returns (events: seq<Event>)
      requires Valid() && b < |pending|
      modifies this
      ensures Valid() && log == old(log) + events
      ensures var r := Step(old(Abs()), Op.Resolve(b), timeout, m); Abs() == r.state && events == r.events
    {
      ghost var before := Abs();
      events := Release(pending[b]);
      pending := RemoveAt(pending, b);
      Record(Op.Resolve(b), m, before, events);
    }

    method OnBeforeApply(m: Moment)
      requires Valid()
      modifies this
      ensures Valid() && log == old(log) && Abs() == Step(old(Abs()), Op.OnBeforeApply, timeout, m).state
    {
      ghost var before := Abs();
      gates := gates + 1;
      Record(Op.OnBeforeApply, m, before, []);
    }

    method OnAfterApply(m: Moment)
      requires Valid()
      modifies this
      ensures Valid() && log == old(log) && Abs() == Step(old(Abs()), Op.OnAfterApply, timeout, m).state
    {
      ghost var before := Abs();
      afters := afters + 1;
      Record(Op.OnAfterApply, m, before, []);
    }
  }

  lemma PicksNext(holds: seq<Hold>, keys: seq<Option<string>>, i: nat, forced: bool, m: Moment)
    requires i < |keys|
    ensures keys[i] in keys
    ensures Picks(holds, keys[..i + 1], forced, m)
            == Picks(holds, keys[..i], forced, m) + Pick(Group(holds, keys[i]), keys[i], forced, m)
  {
    assert Init(keys[..i + 1]) == keys[..i];
  }

  lemma NextHold(holds: seq<Hold>, i: nat)
    requires i < |holds|
    ensures Follows(holds[..i], holds[i], holds[..i + 1])
  {
    assert Init(holds[..i + 1]) == holds[..i];
  }

  ghost predicate ByKey(groups: map<Option<string>, seq<Hold>>, order: seq<Option<string>>, holds: seq<Hold>) {
    && order == Keys(holds)
    && (forall k :: k in groups <==> k in order)
    && forall k :: k in groups ==> groups[k] == Group(holds, k)
  }

  lemma ByKeyNext(groups: map<Option<string>, seq<Hold>>, order: seq<Option<string>>, holds: seq<Hold>, i: nat)
    requires i < |holds| && ByKey(groups, order, holds[..i])
    ensures var h := holds[i];
            var key := Key(h);
            if key in groups then ByKey(groups[key := groups[key] + [h]], order, holds[..i + 1])
            else ByKey(groups[key := [h]], order + [key], holds[..i + 1])
  {
    NextHold(holds, i);
    if Key(holds[i]) in groups {
      ByOldKey(groups, order, holds[..i], holds[i], holds[..i + 1]);
    } else {
      NoGroup(holds[..i], Key(holds[i]));
      ByNewKey(groups, order, holds[..i], holds[i], holds[..i + 1]);
    }
  }

  ghost predicate Follows(seen: seq<Hold>, h: Hold, next: seq<Hold>) {
    && Keys(next) == (if Key(h) in Keys(seen) then Keys(seen) else Keys(seen) + [Key(h)])
    && forall k :: Group(next, k) == Group(seen, k) + if Key(h) == k then [h] else []
  }

  lemma ByOldKey(groups: map<Option<string>, seq<Hold>>, order: seq<Option<string>>, seen: seq<Hold>, h: Hold, next: seq<Hold>)
    requires ByKey(groups, order, seen) && Follows(seen, h, next) && Key(h) in groups
    ensures ByKey(groups[Key(h) := groups[Key(h)] + [h]], order, next)
  {
    forall k | k in groups && k != Key(h) ensures Group(next, k) == groups[k] { assert Group(next, k) == Group(seen, k) + []; }
  }

  lemma ByNewKey(groups: map<Option<string>, seq<Hold>>, order: seq<Option<string>>, seen: seq<Hold>, h: Hold, next: seq<Hold>)
    requires ByKey(groups, order, seen) && Follows(seen, h, next) && Key(h) !in groups && Group(seen, Key(h)) == []
    ensures ByKey(groups[Key(h) := [h]], order + [Key(h)], next)
  {
    forall k | k in groups ensures Group(next, k) == groups[k] { assert Group(next, k) == Group(seen, k) + []; }
    assert Group(next, Key(h)) == [] + [h];
  }

  lemma NoGroup(holds: seq<Hold>, key: Option<string>)
    requires key !in Keys(holds)
    ensures Group(holds, key) == []
  {
    KeysListed(holds);
    assert forall h :: h in holds ==> Key(h) != key;
    assert forall h :: h !in Group(holds, key);
  }
}
