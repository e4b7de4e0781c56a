/** The guarantees of the dispatch kernel, each for every schedule of commands. */
module Guarantees {
  import opened Prelude
  import opened Domain
  import opened WorkOrders
  import opened Tracking
  import opened EventLog
  import opened MemoryStore
  import opened Service
  import opened Interleaving
  import opened Runs

  /** The committed store after a schedule. */
  ghost function Stored(schedule: seq<Action>): Data {
    Run(schedule).data
  }

  lemma StoredIsGood(schedule: seq<Action>)
    ensures Good(Stored(schedule))
  {
    RunKeeps(schedule);
  }

  /** Any interleaved run ends in the same orders, sessions and outbox as its
      committed commands run one after another in commit order. */
  lemma RunsAreSerializable(schedule: seq<Action>)
    ensures Serial(Run(schedule).history) == Success(Stored(schedule))
  {
    RunKeeps(schedule);
  }

  /** Every order's events are numbered 1..version in append order, and folding
      them rebuilds the order; an id without an order has no event. */
  lemma OrderEventsRebuildTheOrder(schedule: seq<Action>, k: Key)
    ensures var d := Stored(schedule);
            var log := LogOf(d.outbox, OrderAggregate, k);
            if k in d.orders then
              && |log| == d.orders[k].version
              && (forall i :: 0 <= i < |log| ==> log[i].version == i + 1)
              && Replay(log) == Live(ViewOf(d.orders[k]))
            else log == []
  {
    StoredIsGood(schedule);
    assert OrderLogged(Stored(schedule), k);
  }

  lemma SessionEventsRebuildTheSession(schedule: seq<Action>, k: Key)
    ensures var d := Stored(schedule);
            var log := LogOf(d.outbox, SessionAggregate, k);
            if k in d.sessions then
              && |log| == d.sessions[k].version
              && (forall i :: 0 <= i < |log| ==> log[i].version == i + 1)
              && TrailOf(log) == Trail(d.sessions[k].status, MarksOf(d.sessions[k].points))
            else log == []
  {
    StoredIsGood(schedule);
    assert SessionLogged(Stored(schedule), k);
  }

  /** Each milestone is recorded at most once per order; completion and cancellation
      exclude each other, and the one that occurs is the order's last event. */
  lemma LifecycleOverRuns(schedule: seq<Action>, k: Key, m: Milestone)
    requires k in Stored(schedule).orders
    ensures var log := LogOf(Stored(schedule).outbox, OrderAggregate, k);
            var status := Stored(schedule).orders[k].status;
            && Count(log, m) <= 1
            && (Count(log, Completion) == 1 <==> status == Completed)
            && (Count(log, Cancellation) == 1 <==> status == Cancelled)
            && (forall i :: 0 <= i < |log| && (Marks(log[i].payload, Completion) || Marks(log[i].payload, Cancellation)) ==>
                  i == |log| - 1)
            && (forall i :: 0 <= i < |log| ==> (log[i].payload.OrderSubmitted? <==> i == 0))
  {
    OrderEventsRebuildTheOrder(schedule, k);
    var log := LogOf(Stored(schedule).outbox, OrderAggregate, k);
    MilestonesOnce(log, m);
    MilestonesOnce(log, Completion);
    MilestonesOnce(log, Cancellation);
    forall i | 0 <= i < |log| ensures log[i].payload.OrderSubmitted? <==> i == 0 { SubmittedFirstAndOnce(log, i); }
    forall i | 0 <= i < |log| && (Marks(log[i].payload, Completion) || Marks(log[i].payload, Cancellation))
      ensures i == |log| - 1
    {
      ClosingIsLast(log, i);
    }
  }

  /** Over any run, once an actor coordinates an order nobody else claims, publishes, assigns or
      cancels it. */
  lemma CoordinatorsDecideOverRuns(schedule: seq<Action>, k: Key, i: nat, j: nat)
    requires i < j < |LogOf(Stored(schedule).outbox, OrderAggregate, k)|
    requires LogOf(Stored(schedule).outbox, OrderAggregate, k)[i].payload.CoordinationClaimed?
    ensures var log := LogOf(Stored(schedule).outbox, OrderAggregate, k);
            match log[j].payload
            case CoordinationClaimed(_) => false
            case PoolPublished(_, actor) => actor == Some(log[i].payload.coordinator)
            case OrderAssigned(_, actor) => actor == Some(log[i].payload.coordinator)
            case OrderCancelled(_, actor) => actor == Some(log[i].payload.coordinator)
            case _ => true
  {
    OrderEventsRebuildTheOrder(schedule, k);
    CoordinatorsDecide(LogOf(Stored(schedule).outbox, OrderAggregate, k), i, j);
  }

  /** A completed order holds a report that meets its evidence rules, a selected
      response belongs to the current assignee, and an open interest only occurs in a
      curated order that is in the pool or was cancelled there. */
  lemma OrdersStaySound(schedule: seq<Action>, k: Key)
    requires k in Stored(schedule).orders
    ensures var o := Stored(schedule).orders[k];
            && (o.status == Completed <==> o.report.Some?)
            && (o.report.Some? ==> MeetsEvidence(o.report.value, o.intent.evidence))
            && (forall e :: e in o.responses && o.responses[e] == Selected ==> o.assignee == Some(e))
            && (forall e :: e in o.responses && o.responses[e] == Interested ==>
                  o.poolMode == Some(Curated) && (o.status == PoolOpen || o.status == Cancelled))
  {
    StoredIsGood(schedule);
  }

  /** An order has at most one session ever; an active session's order is under way
      with that executor; an order on its way has exactly one active session; a closed
      order has only closed sessions, stripped of both tokens. */
  lemma SessionsFollowOrders(schedule: seq<Action>, k: Key)
    ensures var d := Stored(schedule);
            && (forall a, b | a in d.sessions && b in d.sessions && OrderKey(d.sessions[a]) == k == OrderKey(d.sessions[b]) ::
                  a == b)
            && (forall a :: ActiveFor(d.sessions, a, k) ==>
                  k in d.orders && Underway(d.orders[k].status) && d.orders[k].assignee == Some(d.sessions[a].executor))
            && (k in d.orders && d.orders[k].status == EnRoute ==> exists a :: ActiveFor(d.sessions, a, k))
            && (k in d.orders && Terminal(d.orders[k].status) ==>
                  forall a :: a in d.sessions && OrderKey(d.sessions[a]) == k ==>
                    d.sessions[a].status != Active && d.sessions[a].publicToken.None? && d.sessions[a].locationToken.None?)
  {
    StoredIsGood(schedule);
    var d := Stored(schedule);
    assert Tracked(d, k);
    forall a | a in d.sessions && OrderKey(d.sessions[a]) == k
      ensures Accompanied(d, d.sessions[a]) && SoundSession(d.sessions[a])
    {
    }
  }

  /** The "more than one active session" error is unreachable. */
  lemma ActiveSessionIsNeverAmbiguous(schedule: seq<Action>, k: Key)
    ensures FindActive(Stored(schedule).sessions, k).Success?
  {
    StoredIsGood(schedule);
    FindActiveSucceeds(Stored(schedule), k);
  }

  /** No two orders of one organization occupy the same executor. */
  lemma ExecutorsHaveOneOrder(schedule: seq<Action>, a: Key, b: Key)
    requires a in Stored(schedule).orders && b in Stored(schedule).orders && a != b
    requires Busy(Stored(schedule).orders[a].status) && Busy(Stored(schedule).orders[b].status)
    ensures a.0 != b.0 || Stored(schedule).orders[a].assignee != Stored(schedule).orders[b].assignee
  {
    StoredIsGood(schedule);
    var d := Stored(schedule);
    assert Sound(d.orders[a]) && Sound(d.orders[b]) && Occupant(d.orders[a]).Some?;
  }

  /** A commit whose versions match is refused only when it takes an assignee who is occupied. */
  lemma OnlyAssignmentsLoseToCapacity(schedule: seq<Action>, i: nat)
    requires i < |Run(schedule).units| && Run(schedule).units[i].call == CommitWrites
    requires Current(Stored(schedule), Run(schedule).units[i].staging)
    requires CommitTo(Stored(schedule), Run(schedule).units[i].staging).Failure?
    ensures var r := Run(schedule).units[i].request;
            r.OnOrder? && (r.command.Assign? || r.command.ClaimFirst?)
  {
    RunKeeps(schedule);
    CurrentCommitFails(Stored(schedule), Run(schedule).units[i]);
  }

  lemma CurrentCommitFails(d: Data, u: Unit)
    requires Good(d) && Knows(d, u) && u.call == CommitWrites && Current(d, u.staging) && CommitTo(d, u.staging).Failure?
    ensures u.request.OnOrder? && (u.request.command.Assign? || u.request.command.ClaimFirst?)
  {
    hide Good;
    hide Knows;
    hide Current;
    hide CommitTo;
    match u.request {
      case Create(_, _, _) => CreationsFit(d, u);
      case Locate(_, _, _) => LocationsFit(d, u);
      case OnOrder(_, c, _) => if !c.Assign? && !c.ClaimFirst? { CommandsFit(d, u); }
    }
  }

  lemma LocationsFit(d: Data, u: Unit)
    requires Good(d) && Knows(d, u) && u.request.Locate? && u.call == CommitWrites && Current(d, u.staging)
    ensures CommitTo(d, u.staging).Success?
  {
    hide Good;
    hide Roomy;
    GoodIsRoomy(d);
    MergedNone(d.orders);
  }

  lemma CreationsFit(d: Data, u: Unit)
    requires Good(d) && Knows(d, u) && u.request.Create? && u.call == CommitWrites && Current(d, u.staging)
    ensures CommitTo(d, u.staging).Success?
  {
    hide Good;
    GoodIsRoomy(d);
    var key := u.request.key;
    assert key in u.staging.orders;
    MergedOne(d.orders, key, u.staging.orders[key]);
    RoomKept(d.orders, key, u.decision.value.order);
  }

  lemma CommandsFit(d: Data, u: Unit)
    requires Good(d) && Knows(d, u) && u.request.OnOrder? && u.call == CommitWrites && Current(d, u.staging)
    requires !u.request.command.Assign? && !u.request.command.ClaimFirst?
    ensures CommitTo(d, u.staging).Success?
  {
    hide Good;
    hide Roomy;
    hide Decide;
    hide SessionPart;
    hide HoldsSession;
    hide Moved;
    var key, c := u.request.key, u.request.command;
    GoodIsRoomy(d);
    GoodPartStands(d, u);
    MergedOne(d.orders, key, u.staging.orders[key]);
    KeepsItsPlace(d, key, c);
    RoomKept(d.orders, key, u.decision.value.order);
  }

  /** Any number of idempotent creations with one id converge: each ends with the one
      stored order when the intents agree, however far that order has advanced, and
      with a conflict when they differ; none reports a missing order. */
  lemma SubmissionsConverge(schedule: seq<Action>, i: nat)
    requires i < |Run(schedule).units| && Run(schedule).units[i].call == Done
    requires Run(schedule).units[i].request.Create? && Run(schedule).units[i].request.once
    ensures var u, d := Run(schedule).units[i], Stored(schedule);
            var key, intent := u.request.key, u.request.intent;
            && u.outcome.Some?
            && match u.outcome.value
               case Returned(found) =>
                 && found.Some? && key in d.orders && found.value.Key() == key
                 && found.value.intent == intent == d.orders[key].intent
                 && found.value.number == d.orders[key].number
                 && found.value.version <= d.orders[key].version
               case Raised(ValueError) => key.0 == "" || key.1 == "" || intent.workType == ""
               case Raised(ConcurrencyConflict) => key in d.orders && d.orders[key].intent != intent
               case Raised(_) => false
  {
    RunKeeps(schedule);
    assert Knows(Stored(schedule), Run(schedule).units[i]);
  }

  /** Orders of one organization never share a public number. */
  lemma PublicNumbersAreDistinct(schedule: seq<Action>, a: Key, b: Key)
    requires a in Stored(schedule).orders && b in Stored(schedule).orders && a != b && a.0 == b.0
    ensures Stored(schedule).orders[a].number != Stored(schedule).orders[b].number
  {
    RunKeeps(schedule);
    var c := Run(schedule);
    assert NumberHasSource(c, a) && NumberHasSource(c, b);
    var i :| 0 <= i < |c.units| && Drawn(c, i) && c.units[i].request.key == a && c.units[i].number == c.data.orders[a].number;
    var j :| 0 <= j < |c.units| && Drawn(c, j) && c.units[j].request.key == b && c.units[j].number == c.data.orders[b].number;
    assert NumbersApart(c, i, j);
  }

  /** As a run continues, the outbox only grows at its end, no order disappears, and
      an order's version never falls; while it stands still, so does the order, and no
      session becomes active or inactive for it: the unversioned search has no phantom. */
  lemma {:induction false} RunsOnlyMoveOn(schedule: seq<Action>, more: seq<Action>, k: Key)
    ensures Stored(schedule).outbox <= Stored(schedule + more).outbox
    ensures OrderOnward(Stored(schedule), Stored(schedule + more), k)
    ensures SessionOnward(Stored(schedule), Stored(schedule + more), k)
    ensures NoPhantom(Stored(schedule), Stored(schedule + more), k)
  {
    if more == [] {
      assert schedule + more == schedule;
    } else {
      var n := |more| - 1;
      assert (schedule + more)[..|schedule + more| - 1] == schedule + more[..n];
      RunsOnlyMoveOn(schedule, more[..n], k);
      StepMovesOn(schedule + more[..n], more[n], k);
    }
  }

  lemma StepMovesOn(schedule: seq<Action>, a: Action, k: Key)
    ensures var d, d' := Stored(schedule), Next(Run(schedule), a).data;
            d.outbox <= d'.outbox && OrderOnward(d, d', k) && SessionOnward(d, d', k) && NoPhantom(d, d', k)
  {
    hide Good;
    hide Knows;
    hide CommitTo;
    hide Atomically;
    RunKeeps(schedule);
    var c := Run(schedule);
    if c.data != Next(c, a).data {
      var u := c.units[a.unit];
      CommitIsAtomic(c.data, u);
      TransactionsEvolve(c.data, TxnOf(u));
      assert OrderOnward(c.data, Next(c, a).data, k) && SessionOnward(c.data, Next(c, a).data, k);
      assert NoPhantom(c.data, Next(c, a).data, k);
    }
  }

  /** No unit of work ever gets stuck: until it is done its next repository call can be made,
      and each call brings it closer to its end, whatever the others do in between. */
  lemma UnitsRunToTheEnd(schedule: seq<Action>, i: nat, now: int)
    requires i < |Run(schedule).units| && Run(schedule).units[i].call != Done
    ensures Enabled(Run(schedule).units[i])
    ensures var next := Run(schedule + [Advance(i, now)]);
            i < |next.units| && Remaining(next.units[i].call) < Remaining(Run(schedule).units[i].call) <= 8
    ensures forall j :: 0 <= j < |Run(schedule).units| && j != i ==>
              Run(schedule + [Advance(i, now)]).units[j] == Run(schedule).units[j]
  {
    hide Knows;
    RunKeeps(schedule);
    var c := Run(schedule);
    KnowingUnitsGoOn(c.data, c.units[i]);
    assert (schedule + [Advance(i, now)])[..|schedule|] == schedule;
    StepsRunOut(c, i, now);
  }

  // Locations and source events ----------------------------------------------------------

  /** `record_location` with the whole store to itself: a source event that some session
      of the organization holds is acknowledged and dropped. */
  ghost function CheckedLocate(d: Data, t: Txn): Result<Data>
    requires t.request.Locate?
  {
    var Locate(key, executor, fix) := t.request;
    if key !in d.sessions then Failure(NotFound)
    else if d.sessions[key].executor != executor then Failure(InvalidTransition)
    else if fix.eventId.Some? && HasSourceEvent(d.sessions, key.0, fix.source, fix.eventId.value) then Success(d)
    else Atomically(d, t)
  }

  /** The source-event check is not protected by a version: a committed location does
      what the checked command would do on the same data exactly when the event is new
      to the organization, or already in the very session it is added to. */
  lemma LocateSerializesExactly(d: Data, t: Txn)
    requires Good(d) && t.request.Locate? && Atomically(d, t).Success?
    ensures var Locate(key, _, fix) := t.request;
            CheckedLocate(d, t) == Atomically(d, t) <==>
            || fix.eventId.None?
            || !HasSourceEvent(d.sessions, key.0, fix.source, fix.eventId.value)
            || HasEventId(d.sessions[key].points, fix.eventId.value)
  {
    hide Good;
    hide HasSourceEvent;
    hide Stamped;
    hide PointOk;
    var Locate(key, _, fix) := t.request;
    RepeatedFixIsDropped(d.sessions[key], fix, t.now);
    assert d.orders + map[] == d.orders;
    assert d.sessions + map[key := d.sessions[key]] == d.sessions && d.outbox + [] == d.outbox;
    if !(fix.eventId.Some? && HasEventId(d.sessions[key].points, fix.eventId.value)) {
      assert |Atomically(d, t).value.outbox| == |d.outbox| + 1;
    }
  }

  lemma RepeatedFixIsDropped(s: Session, fix: Fix, now: int)
    requires Observe(s, fix, now).Success?
    ensures fix.eventId.Some? && HasEventId(s.points, fix.eventId.value) ==>
              Observe(s, fix, now).value == SessionDecision(s, None)
    ensures !(fix.eventId.Some? && HasEventId(s.points, fix.eventId.value)) ==>
              |Noted(Observe(s, fix, now).value)| == 1
  {
  }
}
