/** The surface-transaction broker: holds, batches, deadlines, one timer and asynchronous gates.

    A step is one entry into the broker. It reads the clock once, `ready` is the set of requirements whose
    `ready()` answers true during the step, and `deferred` says whether some registered gate returned a
    promise. Callbacks are log entries and do not re-enter.
 */
module Broker {
  import opened Seqs
  import opened Numbers

  datatype Request = Request(id: nat, batchKey: Option<string>)

  datatype Deadline = Never | By(time: int)

  datatype Hold = Hold(surface: int, reqs: seq<Request>, deadline: Deadline)

  datatype Event =
    | Began(surface: int, id: nat)      // the caller's own request
    | Froze(surface: int)
    | Started(id: nat)
    | Rendered(id: nat)                 // onFrozenReady
    | Gated(surfaces: seq<int>)         // onBeforeApply
    | Applied(id: nat)
    | Cancelled(id: nat)
    | Thawed(surface: int)
    | AfterApply

  datatype State = State(
    holds: seq<Hold>,                   // in insertion order
    timer: Option<int>,                 // when the armed timer is due
    pending: seq<seq<Hold>>,            // batches waiting for their gates
    gates: nat, afters: nat)            // registered callbacks

  datatype Moment = Moment(now: int, ready: set<nat>, deferred: bool)

  datatype Op =
    | Begin(surface: int, req: Request)
    | Evaluate
    | Cancel(surface: int)
    | FrozenReady(surface: int)
    | Tick
    | Resolve(batch: nat)
    | OnBeforeApply
    | OnAfterApply

  datatype Outcome = Outcome(state: State, events: seq<Event>)

  const IDLE := State([], None, [], 0, 0)

  // ----- Holds -----

  /** The first non-null batch key among the requirements. */
  function KeyOf(reqs: seq<Request>): Option<string> {
    if reqs == [] then None
    else if reqs[0].batchKey.Some? then reqs[0].batchKey
    else KeyOf(reqs[1..])
  }

  function Key(h: Hold): Option<string> { KeyOf(h.reqs) }

  predicate Ready(h: Hold, ready: set<nat>) {
    forall i :: 0 <= i < |h.reqs| ==> h.reqs[i].id in ready
  }

  predicate Expired(h: Hold, now: int) { h.deadline.By? && h.deadline.time <= now }

  function Surfaces(holds: seq<Hold>): seq<int> {
    seq(|holds|, i requires 0 <= i < |holds| => holds[i].surface)
  }

  function Find(holds: seq<Hold>, surface: int): int { IndexOf(Surfaces(holds), surface) }

  predicate Has(s: State, surface: int) { surface in Surfaces(s.holds) }

  // ----- Which holds apply -----

  function Keyed(key: Option<string>): Hold -> bool { h => Key(h) == key }

  /** The holds under one key, in insertion order. */
  function Group(holds: seq<Hold>, key: Option<string>): seq<Hold> { Filter(holds, Keyed(key)) }

  function Keys(holds: seq<Hold>): seq<Option<string>> {
    if holds == [] then []
    else
      var ks, k := Keys(Init(holds)), Key(Last(holds));
      if k in ks then ks else ks + [k]
  }

  predicate Due(h: Hold, forced: bool, m: Moment) { Ready(h, m.ready) || (forced && Expired(h, m.now)) }

  function IsDue(forced: bool, m: Moment): Hold -> bool { h => Due(h, forced, m) }

  predicate AllReady(group: seq<Hold>, ready: set<nat>) {
    forall i :: 0 <= i < |group| ==> Ready(group[i], ready)
  }

  predicate AnyExpired(group: seq<Hold>, now: int) {
    exists i :: 0 <= i < |group| && Expired(group[i], now)
  }

  function Pick(group: seq<Hold>, key: Option<string>, forced: bool, m: Moment): seq<Hold> {
    if key.None? then Filter(group, IsDue(forced, m))
    else if AllReady(group, m.ready) || (forced && AnyExpired(group, m.now)) then group
    else []
  }

  /** The picks of the first groups. */
  function Picks(holds: seq<Hold>, keys: seq<Option<string>>, forced: bool, m: Moment): seq<Hold> {
    if keys == [] then []
    else Picks(holds, Init(keys), forced, m) + Pick(Group(holds, Last(keys)), Last(keys), forced, m)
  }

  function HoldsToApply(holds: seq<Hold>, forced: bool, m: Moment): seq<Hold> {
    Picks(holds, Keys(holds), forced, m)
  }

  // ----- Applying -----

  function Applications(reqs: seq<Request>): seq<Event> {
    seq(|reqs|, i requires 0 <= i < |reqs| => Applied(reqs[i].id))
  }

  function Cancellations(reqs: seq<Request>): seq<Event> {
    seq(|reqs|, i requires 0 <= i < |reqs| => Cancelled(reqs[i].id))
  }

  function Renderings(reqs: seq<Request>): seq<Event> {
    seq(|reqs|, i requires 0 <= i < |reqs| => Rendered(reqs[i].id))
  }

  /** Each hold's requirements apply, then its surface thaws. */
  function Releases(batch: seq<Hold>): seq<Event> {
    if batch == [] then []
    else Releases(Init(batch)) + (Applications(Last(batch).reqs) + [Thawed(Last(batch).surface)])
  }

  function Finish(batch: seq<Hold>, afters: nat): seq<Event> {
    Releases(batch) + seq(afters, i => AfterApply)
  }

  function Outside(surfaces: seq<int>): Hold -> bool { (h: Hold) => h.surface !in surfaces }

  function Without(holds: seq<Hold>, batch: seq<Hold>): seq<Hold> {
    Filter(holds, Outside(Surfaces(batch)))
  }

  function DoApply(s: State, batch: seq<Hold>, m: Moment): Outcome {
    var rest := Without(s.holds, batch);
    var s1 := s.(holds := rest, timer := if rest == [] then None else s.timer);
    var asked := seq(s.gates, i => Gated(Surfaces(batch)));
    if s.gates > 0 && m.deferred then Outcome(s1.(pending := s.pending + [batch]), asked)
    else Outcome(s1, asked + Finish(batch, s.afters))
  }

  function Earliest(holds: seq<Hold>): Deadline {
    if holds == [] then Never
    else
      var e, d := Earliest(Init(holds)), Last(holds).deadline;
      if d.By? && (e.Never? || d.time < e.time) then d else e
  }

  /** The timer is due `max(1, earliest - now)` from now. */
  function Armed(s: State, now: int): State {
    if s.timer.Some? then s
    else match Earliest(s.holds)
      case Never => s
      case By(t) => s.(timer := Some(now + Max(1, t - now)))
  }

  function Round(s: State, forced: bool, m: Moment): Outcome {
    var batch := HoldsToApply(s.holds, forced, m);
    if batch == [] then Outcome(s, []) else DoApply(s, batch, m)
  }

  // ----- Steps -----

  function Evaluated(s: State, m: Moment): Outcome {
    if s.holds == [] then Outcome(s.(timer := None), []) else Round(s, false, m)
  }

  function Extended(d: Deadline, timeout: int, now: int): Deadline {
    if timeout > 0 && d.By? && now + timeout > d.time then By(now + timeout) else d
  }

  /** The hold table with the requirement on it. */
  function Enrolled(holds: seq<Hold>, surface: int, req: Request, timeout: int, now: int): seq<Hold> {
    var i := Find(holds, surface);
    if i == -1 then holds + [Hold(surface, [req], if timeout > 0 then By(now + timeout) else Never)]
    else holds[i := Hold(surface, holds[i].reqs + [req], Extended(holds[i].deadline, timeout, now))]
  }

  function Opening(s: State, surface: int, req: Request): seq<Event> {
    [Began(surface, req.id)] + if Has(s, surface) then [] else [Froze(surface), Started(req.id)]
  }

  function Enroll(s: State, surface: int, req: Request, timeout: int, now: int): State {
    Armed(s.(holds := Enrolled(s.holds, surface, req, timeout, now)), now)
  }

  function Dropped(s: State, i: nat): Outcome
    requires i < |s.holds|
  {
    var h, rest := s.holds[i], RemoveAt(s.holds, i);
    Outcome(s.(holds := rest, timer := if rest == [] then None else s.timer),
            Cancellations(h.reqs) + [Thawed(h.surface)])
  }

  function Ticked(s: State, m: Moment): Outcome {
    var s0 := s.(timer := None);
    if s0.holds == [] then Outcome(s0, [])
    else
      var r := Round(s0, true, m);
      r.(state := if r.state.holds == [] then r.state else Armed(r.state, m.now))
  }

  /** A tick comes from an armed timer, a gate resolves once. */
  predicate Possible(s: State, op: Op) {
    match op
    case Tick => s.timer.Some?
    case Resolve(b) => b < |s.pending|
    case _ => true
  }

  function Step(s: State, op: Op, timeout: int, m: Moment): Outcome
    requires Possible(s, op)
  {
    match op
    case Begin(x, req) =>
      var r := Evaluated(Enroll(s, x, req, timeout, m.now), m);
      r.(events := Opening(s, x, req) + r.events)
    case Evaluate => Evaluated(s, m)
    case Cancel(x) =>
      if Has(s, x) then Dropped(s, Find(s.holds, x)) else Outcome(s, [])
    case FrozenReady(x) =>
      if Has(s, x) then
        var r := Evaluated(s, m);
        r.(events := Renderings(s.holds[Find(s.holds, x)].reqs) + r.events)
      else Outcome(s, [])
    case Tick => Ticked(s, m)
    case Resolve(b) => Outcome(s.(pending := RemoveAt(s.pending, b)), Finish(s.pending[b], s.afters))
    case OnBeforeApply => Outcome(s.(gates := s.gates + 1), [])
    case OnAfterApply => Outcome(s.(afters := s.afters + 1), [])
  }
}
