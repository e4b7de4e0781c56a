/** What callers are told: how a unit of work ends, against what the store holds. */
module Outcomes {
  import opened Prelude
  import opened Domain
  import opened WorkOrders
  import opened Tracking
  import opened MemoryStore
  import opened Service
  import opened Interleaving
  import opened Runs

  /** A call of a unit of work changes the store exactly when it commits, and then the caller gets
      the order as stored; whoever is told an error has changed nothing, and no command on an order
      returns without having committed. */
  lemma OutcomesTellTheTruth(schedule: seq<Action>, i: nat, now: int)
    requires i < |Run(schedule).units| && Run(schedule).units[i].call != Done
    ensures var c, c' := Run(schedule), Run(schedule + [Advance(i, now)]);
            && i < |c'.units|
            && var u, u' := c.units[i], c'.units[i];
            && u'.request == u.request
            && if c'.history == c.history then
                 && c'.data == c.data
                 && (u'.call == Done && u'.outcome.Some? && u'.outcome.value.Returned? ==>
                       u.request.Locate? || (u.request.Create? && u.request.once && u.request.key in c.data.orders))
               else
                 && c'.history == c.history + [TxnOf(u)] && Atomically(c.data, TxnOf(u)) == Success(c'.data)
                 && u'.call == Done
                 && if u.request.Locate? then u'.outcome == Some(Returned(None))
                    else u.request.key in c'.data.orders && u'.outcome == Some(Returned(Some(c'.data.orders[u.request.key])))
  {
    hide Good;
    hide Atomically;
    hide Knows;
    RunKeeps(schedule);
    var c, u := Run(schedule), Run(schedule).units[i];
    assert (schedule + [Advance(i, now)])[..|schedule|] == schedule;
    KnowingUnitsGoOn(c.data, u);
    if u.call == CommitWrites {
      if CommitTo(c.data, u.staging).Success? {
        CommitIsAtomic(c.data, u);
        CommittedOrder(c.data, u);
        assert |c.history + [TxnOf(u)]| == |c.history| + 1;
      }
      ConflictTellsNothing(u);
    } else if u.call == AllocateNumber {
      AllocationTellsNothing(u, NextSequence(c.counters, u.request.key.0));
    } else {
      ReadStepsKeepRequest(c.data, u, now);
      ReadsReturnOnlyWhatIsThere(c.data, u, now);
    }
  }

  lemma CommittedOrder(d: Data, u: Unit)
    requires Knows(d, u) && u.call == CommitWrites && CommitTo(d, u.staging).Success?
    ensures if u.request.Locate? then u.decision.None?
            else u.decision.Some? && u.request.key in CommitTo(d, u.staging).value.orders
                 && CommitTo(d, u.staging).value.orders[u.request.key] == u.decision.value.order
  {
    hide Decide;
    hide Submit;
    hide HoldsSession;
    if !u.request.Locate? { assert u.request.key in u.staging.orders; }
  }

  lemma ConflictTellsNothing(u: Unit)
    ensures var u' := Conflicted(u, ConcurrencyConflict);
            u'.request == u.request && (u'.call == Done ==> u'.outcome == Some(Raised(ConcurrencyConflict)))
  {
  }

  lemma AllocationTellsNothing(u: Unit, sequence: nat)
    requires u.request.Create? && sequence >= 1
    ensures var u' := Allocated(u, sequence); u'.request == u.request && (u'.call == Done ==> u'.outcome.Some? && u'.outcome.value.Raised?)
  {
    hide Submit;
    hide OrderNumbers.Format;
    OrderNumbers.ParseInvertsFormat(sequence);
  }

  lemma ReadsReturnOnlyWhatIsThere(d: Data, u: Unit, now: int)
    requires Knows(d, u) && Enabled(u) && ReadsOnly(u.call)
    ensures var u' := ReadStep(u, d, now);
            u'.call == Done && u'.outcome.Some? && u'.outcome.value.Returned? ==>
              u.request.Locate? || (u.request.Create? && u.request.once && u.request.key in d.orders)
  {
    hide Decide;
    hide Submit;
    hide Begin;
    hide Close;
    hide Observe;
    hide FindActive;
    hide HasSourceEvent;
    hide CommitTo;
  }

  /** What a read leaves of its unit. */
  lemma ReadAdvances(c: Config, i: nat, now: int)
    requires i < |c.units| && Enabled(c.units[i]) && ReadsOnly(c.units[i].call)
    ensures Next(c, Advance(i, now)) == c.(units := c.units[i := ReadStep(c.units[i], c.data, now)])
  {
    hide ReadStep;
    hide Enabled;
  }

  lemma SearchFinds(sessions: map<Key, Session>, org: string, source: LocationSource, eventId: string)
    ensures HasSourceEvent(sessions, org, source, eventId)
            <==> exists k, j :: k in sessions && sessions[k].org == org && 0 <= j < |sessions[k].points|
                                && sessions[k].points[j].source == source && sessions[k].points[j].eventId == Some(eventId)
  {
    if HasSourceEvent(sessions, org, source, eventId) {
      var k :| k in sessions && sessions[k].org == org && SessionReports(sessions[k], source, eventId);
      var j :| 0 <= j < |sessions[k].points| && Reports(sessions[k].points[j], source, eventId);
    }
    if k, j :| k in sessions && sessions[k].org == org && 0 <= j < |sessions[k].points|
               && sessions[k].points[j].source == source && sessions[k].points[j].eventId == Some(eventId) {
      assert Reports(sessions[k].points[j], source, eventId);
      assert SessionReports(sessions[k], source, eventId);
    }
  }

  /** A location is acknowledged without being stored exactly when, at the moment of the search, a
      session of the organization holds a point with this event id from this source. */
  lemma LocationsAreDroppedForCause(schedule: seq<Action>, i: nat, now: int)
    requires i < |Run(schedule).units| && Run(schedule).units[i].call == CheckSourceEvent
    ensures var c, c' := Run(schedule), Run(schedule + [Advance(i, now)]);
            && i < |c'.units| && c.units[i].request.Locate? && c.units[i].request.fix.eventId.Some?
            && var Locate(key, _, fix) := c.units[i].request;
               (c'.units[i].call == CommitNothing && c'.units[i].outcome == Some(Returned(None)))
               <==> exists k, j :: k in c.data.sessions && c.data.sessions[k].org == key.0 && 0 <= j < |c.data.sessions[k].points|
                                   && c.data.sessions[k].points[j].source == fix.source
                                   && c.data.sessions[k].points[j].eventId == Some(fix.eventId.value)
  {
    hide Good;
    hide Observe;
    hide HasSourceEvent;
    hide Next;
    RunKeeps(schedule);
    var c, u := Run(schedule), Run(schedule).units[i];
    assert (schedule + [Advance(i, now)])[..|schedule|] == schedule;
    SearchingUnit(c.data, u);
    ReadAdvances(c, i, now);
    SearchFinds(c.data.sessions, u.request.session.0, u.request.fix.source, u.request.fix.eventId.value);
    assert Run(schedule + [Advance(i, now)]).units[i] == SourceChecked(u, c.data.sessions, now);
  }

  lemma SearchingUnit(d: Data, u: Unit)
    requires Knows(d, u) && u.call == CheckSourceEvent
    ensures Enabled(u) && u.request.Locate?
  {
  }

  /** A command on an order that is refused when it reads the order would be refused with the same
      error if it had the store to itself at that moment. */
  lemma RefusalsAreJustified(schedule: seq<Action>, i: nat, now: int)
    requires i < |Run(schedule).units| && Run(schedule).units[i].call == GetOrder
    ensures var c, c' := Run(schedule), Run(schedule + [Advance(i, now)]);
            && i < |c'.units|
            && (c'.units[i].call == Done ==>
                  && c'.units[i].outcome.Some? && c'.units[i].outcome.value.Raised?
                  && Atomically(c.data, TxnOf(c.units[i])) == Failure(c'.units[i].outcome.value.error))
  {
    hide Good;
    hide Knows;
    hide Next;
    hide Atomically;
    hide WithOrder;
    RunKeeps(schedule);
    var c, u := Run(schedule), Run(schedule).units[i];
    assert (schedule + [Advance(i, now)])[..|schedule|] == schedule;
    KnowingUnitsGoOn(c.data, u);
    ReadAdvances(c, i, now);
    assert Run(schedule + [Advance(i, now)]).units[i] == WithOrder(u, c.data.orders);
    ReadRefused(c.data, u);
  }

  lemma ReadRefused(d: Data, u: Unit)
    requires u.request.OnOrder?
    ensures var u' := WithOrder(u, d.orders);
            u'.call == Done ==>
              && u'.outcome.Some? && u'.outcome.value.Raised? && Atomically(d, TxnOf(u)) == Failure(u'.outcome.value.error)
  {
    hide Decide;
    hide Begin;
  }
}
