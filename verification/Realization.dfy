/** Every command that would succeed with the store to itself can be run to its commit, step by
    step, from any reachable configuration; and the race the source-event check does not see. */
module Realization {
  import opened Prelude
  import opened Domain
  import opened WorkOrders
  import opened Tracking
  import opened MemoryStore
  import opened Service
  import opened Interleaving
  import opened Guarantees
  import opened DispatchService
  import OrderNumbers

  lemma RunSnoc(schedule: seq<Action>, a: Action)
    ensures Run(schedule + [a]) == Next(Run(schedule), a)
  {
    assert (schedule + [a])[..|schedule|] == schedule;
  }

  function Turns(i: nat, now: int, n: nat): seq<Action> {
    if n == 0 then [] else [Advance(i, now)] + Turns(i, now, n - 1)
  }

  /** A unit reaches another by `n` reads of unchanged data. */
  ghost predicate ReadsTo(u: Unit, d: Data, now: int, v: Unit, n: nat)
    decreases n
  {
    if n == 0 then v == u
    else
      && Enabled(u) && u.call != AllocateNumber && u.call != CommitWrites && u.call != Done
      && ReadsTo(ReadStep(u, d, now), d, now, v, n - 1)
  }

  lemma TurnReads(schedule: seq<Action>, i: nat, now: int)
    requires i < |Run(schedule).units| && Enabled(Run(schedule).units[i])
    requires Run(schedule).units[i].call != AllocateNumber && Run(schedule).units[i].call != CommitWrites && Run(schedule).units[i].call != Done
    ensures var c := Run(schedule);
            Run(schedule + [Advance(i, now)]) == c.(units := c.units[i := ReadStep(c.units[i], c.data, now)])
  {
    hide ReadStep;
    hide Enabled;
    RunSnoc(schedule, Advance(i, now));
  }

  lemma {:induction false} TurnsRead(schedule: seq<Action>, i: nat, now: int, v: Unit, n: nat)
    requires i < |Run(schedule).units| && ReadsTo(Run(schedule).units[i], Run(schedule).data, now, v, n)
    ensures Run(schedule + Turns(i, now, n)) == Run(schedule).(units := Run(schedule).units[i := v])
    decreases n
  {
    hide ReadStep;
    hide Enabled;
    hide Run;
    var c := Run(schedule);
    if n == 0 {
      assert schedule + Turns(i, now, 0) == schedule && c.units[i := v] == c.units;
    } else {
      var next := schedule + [Advance(i, now)];
      TurnReads(schedule, i, now);
      TurnsRead(next, i, now, v, n - 1);
      assert next + Turns(i, now, n - 1) == schedule + Turns(i, now, n);
      assert c.units[i := ReadStep(c.units[i], c.data, now)][i := v] == c.units[i := v];
    }
  }

  lemma CommitTurn(schedule: seq<Action>, i: nat, now: int, d: Data)
    requires i < |Run(schedule).units| && Run(schedule).units[i].call == CommitWrites
    requires CommitTo(Run(schedule).data, Run(schedule).units[i].staging) == Success(d)
    ensures var c, u := Run(schedule), Run(schedule).units[i];
            Run(schedule + [Advance(i, now)]) == Config(d, c.counters, c.units[i := Succeeded(u)], c.history + [TxnOf(u)])
  {
    hide CommitTo;
    RunSnoc(schedule, Advance(i, now));
  }

  lemma LastReplaced<T>(items: seq<T>, a: T, b: T)
    ensures (items + [a])[|items| := b] == items + [b]
  {
  }

  // What a unit alone on the store prepares ---------------------------------------------------------

  /** How many reads come before the commit, after the first call. */
  ghost function Reads(d: Data, r: Request): nat {
    match r
    case Create(_, _, _) => 2
    case OnOrder(key, c, _) =>
      if c.StartTravel? then 4
      else if !Ends(c) then 3
      else if FindActive(d.sessions, key).Success? && FindActive(d.sessions, key).value.Some? then 5 else 4
    case Locate(_, _, fix) => if fix.eventId.Some? then 4 else 3
  }

  lemma PlainReads(d: Data, key: Key, c: Command, start: SessionStart, now: int) returns (v: Unit)
    requires Good(d) && key in d.orders && Decide(d.orders[key], c).Success? && !c.StartTravel? && !Ends(c)
    ensures var r := OnOrder(key, c, start);
            && ReadsTo(Fresh(r), d, now, v, 3) && v.call == CommitWrites && TxnOf(v) == Txn(r, "", 0)
            && v.staging == AloneStaging(d, key, Decide(d.orders[key], c).value, None)
  {
    hide Decide;
    hide Good;
    var r, o := OnOrder(key, c, start), d.orders[key];
    var x := Decide(o, c).value;
    KeyedAlone(d, key, c);
    var u1 := Fresh(r).(order := Some(o), decision := Some(x), call := SaveOrder);
    assert ReadStep(Fresh(r), d, now) == u1;
    var u2 := u1.(staging := Staging(OrderWrite(x.order, Some(o.version)), map[], []), call := AddEvents);
    assert ReadStep(u1, d, now) == u2;
    v := u2.(staging := Staging(OrderWrite(x.order, Some(o.version)), map[], Recorded(x)), call := CommitWrites);
    assert Pulled(u2) == Recorded(x);
    assert ReadStep(u2, d, now) == v;
    hide ReadStep;
    assert ReadsTo(u2, d, now, v, 1) && ReadsTo(u1, d, now, v, 2);
  }

  lemma TravelReads(d: Data, key: Key, who: string, start: SessionStart, now: int) returns (v: Unit)
    requires Good(d) && key in d.orders && Decide(d.orders[key], Command.StartTravel(who)).Success? && Begin(key, who, start).Success?
    ensures var r := OnOrder(key, Command.StartTravel(who), start);
            var x, y := Decide(d.orders[key], Command.StartTravel(who)).value, Begin(key, who, start).value;
            && ReadsTo(Fresh(r), d, now, v, 4) && v.call == CommitWrites && TxnOf(v) == Txn(r, "", 0)
            && v.staging == Staging(OrderWrite(x.order, Some(d.orders[key].version)), SessionWrite(y.session, None), Recorded(x) + Noted(y))
  {
    hide Decide;
    hide Begin;
    hide Good;
    var c := Command.StartTravel(who);
    var r, o := OnOrder(key, c, start), d.orders[key];
    var x, y := Decide(o, c).value, Begin(key, who, start).value;
    KeyedAlone(d, key, c);
    var orders, sessions := OrderWrite(x.order, Some(o.version)), SessionWrite(y.session, None);
    var u1 := Fresh(r).(order := Some(o), decision := Some(x), part := Some(y), call := SaveOrder);
    assert ReadStep(Fresh(r), d, now) == u1;
    var u2 := u1.(staging := Staging(orders, map[], []), call := SaveSession);
    assert ReadStep(u1, d, now) == u2;
    var u3 := u2.(staging := Staging(orders, sessions, []), call := AddEvents);
    assert ReadStep(u2, d, now) == u3;
    v := u3.(staging := Staging(orders, sessions, Recorded(x) + Noted(y)), call := CommitWrites);
    assert Pulled(u3) == Recorded(x) + Noted(y);
    assert ReadStep(u3, d, now) == v;
    hide ReadStep;
    assert ReadsTo(u3, d, now, v, 1) && ReadsTo(u2, d, now, v, 2) && ReadsTo(u1, d, now, v, 3);
  }

  lemma EndReads(d: Data, key: Key, c: Command, start: SessionStart, now: int) returns (v: Unit, part: Option<SessionDecision>)
    requires Good(d) && key in d.orders && Decide(d.orders[key], c).Success? && Ends(c)
    ensures var r := OnOrder(key, c, start);
            && SessionPart(d, key, c, start) == Success(part)
            && (part.Some? ==> part.value.session.Key() in d.sessions)
            && ReadsTo(Fresh(r), d, now, v, Reads(d, r)) && v.call == CommitWrites && TxnOf(v) == Txn(r, "", 0)
            && v.staging == AloneStaging(d, key, Decide(d.orders[key], c).value, part)
  {
    hide Decide;
    hide Close;
    hide Good;
    hide FindActive;
    hide SessionPart;
    var r, o := OnOrder(key, c, start), d.orders[key];
    var x := Decide(o, c).value;
    KeyedAlone(d, key, c);
    EndPart(d, key, c, start);
    var found := FindActive(d.sessions, key).value;
    var orders := OrderWrite(x.order, Some(o.version));
    var u1 := Fresh(r).(order := Some(o), decision := Some(x), call := SaveOrder);
    assert ReadStep(Fresh(r), d, now) == u1;
    var u2 := u1.(staging := Staging(orders, map[], []), call := FindActiveSession);
    assert ReadStep(u1, d, now) == u2;
    match found {
      case None =>
        part := None;
        var u3 := u2.(call := AddEvents);
        assert ReadStep(u2, d, now) == u3;
        v := u3.(staging := Staging(orders, map[], Recorded(x)), call := CommitWrites);
        assert Pulled(u3) == Recorded(x);
        assert ReadStep(u3, d, now) == v;
        hide ReadStep;
        assert ReadsTo(u3, d, now, v, 1) && ReadsTo(u2, d, now, v, 2) && ReadsTo(u1, d, now, v, 3);
      case Some(s) =>
        var y := Close(s, Reason(c)).value;
        part := Some(y);
        var sessions := SessionWrite(y.session, Some(s.version));
        var u3 := u2.(session := Some(s), part := Some(y), call := SaveSession);
        assert ReadStep(u2, d, now) == u3;
        var u4 := u3.(staging := Staging(orders, sessions, []), call := AddEvents);
        assert ReadStep(u3, d, now) == u4;
        v := u4.(staging := Staging(orders, sessions, Recorded(x) + Noted(y)), call := CommitWrites);
        assert Pulled(u4) == Recorded(x) + Noted(y);
        assert ReadStep(u4, d, now) == v;
        hide ReadStep;
        assert ReadsTo(u4, d, now, v, 1) && ReadsTo(u3, d, now, v, 2) && ReadsTo(u2, d, now, v, 3) && ReadsTo(u1, d, now, v, 4);
    }
  }

  /** The event of a fix is unknown to every session of the organization. */
  ghost predicate NewEvent(d: Data, key: Key, fix: Fix) {
    fix.eventId.None? || !HasSourceEvent(d.sessions, key.0, fix.source, fix.eventId.value)
  }

  lemma LocateReads(d: Data, key: Key, executor: string, fix: Fix, now: int) returns (v: Unit)
    requires key in d.sessions && d.sessions[key].executor == executor && Observe(d.sessions[key], fix, now).Success?
    requires NewEvent(d, key, fix)
    ensures var r := Locate(key, executor, fix);
            var s, y := d.sessions[key], Observe(d.sessions[key], fix, now).value;
            && ReadsTo(Fresh(r), d, now, v, Reads(d, r)) && v.call == CommitWrites && TxnOf(v) == Txn(r, "", now)
            && v.staging == Staging(map[], SessionWrite(y.session, Some(s.version)), Noted(y)) && v.decision.None?
  {
    hide Observe;
    hide HasSourceEvent;
    var r, s := Locate(key, executor, fix), d.sessions[key];
    var y := Observe(s, fix, now).value;
    var sessions := SessionWrite(y.session, Some(s.version));
    var held := Fresh(r).(session := Some(s), call := CheckSourceEvent);
    var u := Fresh(r).(session := Some(s), now := now, part := Some(y), call := SaveSession);
    if fix.eventId.Some? {
      assert ReadStep(Fresh(r), d, now) == held && ReadStep(held, d, now) == u;
    } else {
      assert ReadStep(Fresh(r), d, now) == u;
    }
    var w := u.(staging := Staging(map[], sessions, []), call := AddEvents);
    assert ReadStep(u, d, now) == w;
    v := w.(staging := Staging(map[], sessions, Noted(y)), call := CommitWrites);
    assert Pulled(w) == Noted(y);
    assert ReadStep(w, d, now) == v;
    hide ReadStep;
    assert ReadsTo(w, d, now, v, 1) && ReadsTo(u, d, now, v, 2);
    if fix.eventId.Some? { assert ReadsTo(held, d, now, v, 3); }
  }

  lemma CreateReads(d: Data, u: Unit, now: int, x: Decision) returns (v: Unit)
    requires u.request.Create? && u.call == SaveOrder && u.decision == Some(x) && x.order.Key() == u.request.key
    requires u.order.None? && u.session.None? && u.part.None? && u.staging == NOTHING
    ensures ReadsTo(u, d, now, v, 2) && v.call == CommitWrites && TxnOf(v) == TxnOf(u)
    ensures v.staging == Staging(OrderWrite(x.order, None), map[], Recorded(x))
  {
    var w := u.(staging := Staging(OrderWrite(x.order, None), map[], []), call := AddEvents);
    assert ReadStep(u, d, now) == w;
    v := w.(staging := Staging(OrderWrite(x.order, None), map[], Recorded(x)), call := CommitWrites);
    assert Pulled(w) == Recorded(x);
    assert ReadStep(w, d, now) == v;
    hide ReadStep;
    assert ReadsTo(w, d, now, v, 1);
  }

  // Running a command to its commit ------------------------------------------------------------------

  /** A request as the transaction it becomes when it is run now: a creation draws the next public
      number, and only a location reads the clock. */
  ghost function TxnNow(c: Config, r: Request, now: int): Txn {
    match r
    case Create(key, _, _) =>
      var sequence := NextSequence(c.counters, key.0);
      OrderNumbers.ParseInvertsFormat(sequence);
      Txn(r, OrderNumbers.Format(sequence).value, 0)
    case OnOrder(_, _, _) => Txn(r, "", 0)
    case Locate(_, _, _) => Txn(r, "", now)
  }

  /** A schedule that adds one commit of `t` to another and leaves every other unit alone. */
  ghost predicate Commits(schedule: seq<Action>, more: seq<Action>, t: Txn) {
    var c, c' := Run(schedule), Run(schedule + more);
    && Atomically(c.data, t).Success? && c'.data == Atomically(c.data, t).value
    && c'.history == c.history + [t]
    && |c'.units| == |c.units| + 1 && c'.units[..|c.units|] == c.units
    && c'.units[|c.units|].request == t.request && c'.units[|c.units|].call == Done
  }

  lemma Spawned(schedule: seq<Action>, r: Request)
    ensures var c := Run(schedule); Run(schedule + [Spawn(r)]) == c.(units := c.units + [Fresh(r)])
  {
    RunSnoc(schedule, Spawn(r));
  }

  /** The last unit reads and commits. */
  lemma LastCommits(schedule: seq<Action>, before: seq<Unit>, u: Unit, now: int, v: Unit, n: nat, d: Data)
    requires Run(schedule).units == before + [u]
    requires ReadsTo(u, Run(schedule).data, now, v, n) && v.call == CommitWrites && CommitTo(Run(schedule).data, v.staging) == Success(d)
    ensures var c := Run(schedule);
            Run(schedule + Turns(|before|, now, n) + [Advance(|before|, now)])
            == Config(d, c.counters, before + [Succeeded(v)], c.history + [TxnOf(v)])
  {
    hide ReadsTo;
    hide CommitTo;
    hide Run;
    hide Succeeded;
    var i := |before|;
    assert (before + [u])[i] == u;
    TurnsRead(schedule, i, now, v, n);
    LastReplaced(before, u, v);
    CommitTurn(schedule + Turns(i, now, n), i, now, d);
    LastReplaced(before, v, Succeeded(v));
  }

  lemma CommitsBy(schedule: seq<Action>, more: seq<Action>, v: Unit)
    requires var c, c' := Run(schedule), Run(schedule + more);
             && Atomically(c.data, TxnOf(v)) == Success(c'.data) && c'.history == c.history + [TxnOf(v)]
             && c'.units == c.units + [Succeeded(v)]
    ensures Commits(schedule, more, TxnOf(v))
  {
    hide Atomically;
    hide Run;
    var units := Run(schedule).units;
    assert (units + [Succeeded(v)])[..|units|] == units;
  }

  /** Spawn, read, commit. */
  lemma ReadAndCommit(schedule: seq<Action>, r: Request, now: int, v: Unit, n: nat, d: Data) returns (more: seq<Action>)
    requires ReadsTo(Fresh(r), Run(schedule).data, now, v, n) && v.call == CommitWrites && v.request == r
    requires CommitTo(Run(schedule).data, v.staging) == Success(d) == Atomically(Run(schedule).data, TxnOf(v))
    ensures Commits(schedule, more, TxnOf(v))
  {
    hide ReadsTo;
    hide CommitTo;
    hide Atomically;
    hide Commits;
    hide Run;
    hide Fresh;
    hide Succeeded;
    var c := Run(schedule);
    var s1 := schedule + [Spawn(r)];
    Spawned(schedule, r);
    LastCommits(s1, c.units, Fresh(r), now, v, n, d);
    more := [Spawn(r)] + Turns(|c.units|, now, n) + [Advance(|c.units|, now)];
    assert schedule + more == s1 + Turns(|c.units|, now, n) + [Advance(|c.units|, now)];
    CommitsBy(schedule, more, v);
  }

  lemma NumberTurn(schedule: seq<Action>, i: nat, now: int)
    requires i < |Run(schedule).units| && Run(schedule).units[i].call == AllocateNumber && Run(schedule).units[i].request.Create?
    ensures var c, u := Run(schedule), Run(schedule).units[i];
            var c' := Run(schedule + [Advance(i, now)]);
            c'.data == c.data && c'.history == c.history && c'.units == c.units[i := Allocated(u, NextSequence(c.counters, u.request.key.0))]
  {
    hide Allocated;
    RunSnoc(schedule, Advance(i, now));
  }

  lemma AllocatedDecides(u: Unit, sequence: nat)
    requires u.request.Create? && sequence >= 1 && OrderNumbers.Format(sequence).Success?
    requires Submit(u.request.key, OrderNumbers.Format(sequence).value, u.request.intent).Success?
    ensures Allocated(u, sequence) == u.(number := OrderNumbers.Format(sequence).value, call := SaveOrder,
                                         decision := Some(Submit(u.request.key, OrderNumbers.Format(sequence).value, u.request.intent).value))
  {
    hide Submit;
  }

  /** What an atomic creation that succeeds decides, and the number it draws. */
  lemma CreationDecides(c: Config, key: Key, intent: Intent, once: bool, now: int) returns (u: Unit, x: Decision)
    requires Good(c.data) && Atomically(c.data, TxnNow(c, Request.Create(key, intent, once), now)).Success?
    ensures var r, t := Request.Create(key, intent, once), TxnNow(c, Request.Create(key, intent, once), now);
            && u == Allocated(Fresh(r), NextSequence(c.counters, key.0)) && TxnOf(u) == t
            && u.request == r && u.call == SaveOrder && u.decision == Some(x) && x.order.Key() == key
            && u.order.None? && u.session.None? && u.part.None? && u.staging == NOTHING
            && CommitTo(c.data, Staging(OrderWrite(x.order, None), map[], Recorded(x))) == Atomically(c.data, t)
  {
    hide Atomically;
    hide CommitTo;
    hide Good;
    hide Submit;
    hide Allocated;
    hide OrderNumbers.Format;
    var r := Request.Create(key, intent, once);
    var sequence, t := NextSequence(c.counters, key.0), TxnNow(c, r, now);
    NumbersShow(sequence);
    CreateAlone(c.data, t);
    x := Submit(key, t.number, intent).value;
    AllocatedDecides(Fresh(r), sequence);
    u := Allocated(Fresh(r), sequence);
  }

  lemma CreateRunsAlone(schedule: seq<Action>, key: Key, intent: Intent, once: bool, now: int) returns (more: seq<Action>)
    requires Atomically(Run(schedule).data, TxnNow(Run(schedule), Request.Create(key, intent, once), now)).Success?
    ensures Commits(schedule, more, TxnNow(Run(schedule), Request.Create(key, intent, once), now))
  {
    hide Atomically;
    hide CommitTo;
    hide Commits;
    hide Good;
    hide Run;
    hide ReadsTo;
    hide Allocated;
    hide Succeeded;
    hide TxnNow;
    hide OrderWrite;
    hide Recorded;
    StoredIsGood(schedule);
    var c, r := Run(schedule), Request.Create(key, intent, once);
    var i, t := |c.units|, TxnNow(c, r, now);
    var u, x := CreationDecides(c, key, intent, once, now);
    var s1 := schedule + [Spawn(r)];
    Spawned(schedule, r);
    var s2 := s1 + [Advance(i, now)];
    NumberTurn(s1, i, now);
    LastReplaced(c.units, Fresh(r), u);
    var v := CreateReads(c.data, u, now, x);
    LastCommits(s2, c.units, u, now, v, 2, Atomically(c.data, t).value);
    more := [Spawn(r), Advance(i, now)] + Turns(i, now, 2) + [Advance(i, now)];
    assert schedule + more == s2 + Turns(i, now, 2) + [Advance(i, now)];
    CommitsBy(schedule, more, v);
  }

  lemma NumbersShow(sequence: nat)
    requires sequence >= 1
    ensures OrderNumbers.Format(sequence).Success? && OrderNumbers.Format(sequence).value != ""
  {
    OrderNumbers.ParseInvertsFormat(sequence);
  }

  lemma CommandRunsAlone(schedule: seq<Action>, key: Key, c: Command, start: SessionStart, now: int) returns (more: seq<Action>)
    requires Atomically(Run(schedule).data, Txn(OnOrder(key, c, start), "", 0)).Success?
    ensures Commits(schedule, more, Txn(OnOrder(key, c, start), "", 0))
  {
    hide Decide;
    hide Begin;
    hide Good;
    hide CommitTo;
    hide ReadsTo;
    hide SessionPart;
    StoredIsGood(schedule);
    var d, t := Run(schedule).data, Txn(OnOrder(key, c, start), "", 0);
    var x := Decide(d.orders[key], c).value;
    var v: Unit;
    if c.StartTravel? {
      TravelBegins(d, t);
      v := TravelReads(d, key, c.executor, start, now);
      TravelAlone(d, t, x, Begin(key, c.executor, start).value);
      hide Atomically;
      more := ReadAndCommit(schedule, t.request, now, v, 4, Atomically(d, t).value);
    } else if Ends(c) {
      var part;
      v, part := EndReads(d, key, c, start, now);
      CommandAlone(d, t, x, part);
      hide Atomically;
      more := ReadAndCommit(schedule, t.request, now, v, Reads(d, t.request), Atomically(d, t).value);
    } else {
      NoPart(d, key, c, start);
      v := PlainReads(d, key, c, start, now);
      CommandAlone(d, t, x, None);
      hide Atomically;
      more := ReadAndCommit(schedule, t.request, now, v, 3, Atomically(d, t).value);
    }
  }

  lemma TravelBegins(d: Data, t: Txn)
    requires t.request.OnOrder? && t.request.command.StartTravel? && Atomically(d, t).Success?
    ensures Begin(t.request.key, t.request.command.executor, t.request.start).Success?
  {
  }

  lemma NoPart(d: Data, key: Key, c: Command, start: SessionStart)
    requires !c.StartTravel? && !Ends(c)
    ensures SessionPart(d, key, c, start) == Success(None)
  {
  }

  lemma LocateRunsAlone(schedule: seq<Action>, key: Key, executor: string, fix: Fix, now: int) returns (more: seq<Action>)
    requires Atomically(Run(schedule).data, Txn(Locate(key, executor, fix), "", now)).Success? && NewEvent(Run(schedule).data, key, fix)
    ensures Commits(schedule, more, Txn(Locate(key, executor, fix), "", now))
  {
    hide Observe;
    hide Good;
    hide CommitTo;
    hide ReadsTo;
    hide NewEvent;
    StoredIsGood(schedule);
    var d, t := Run(schedule).data, Txn(Locate(key, executor, fix), "", now);
    var v := LocateReads(d, key, executor, fix, now);
    LocateAlone(d, t, Observe(d.sessions[key], fix, now).value);
    hide Atomically;
    more := ReadAndCommit(schedule, t.request, now, v, Reads(d, t.request), Atomically(d, t).value);
  }

  /** From every reachable configuration, every command that would succeed with the store to
      itself can be run to its commit without touching the other units: the interleaved system
      reaches everything the serial one does. */
  lemma CommandsRunAlone(schedule: seq<Action>, r: Request, now: int) returns (more: seq<Action>)
    requires Atomically(Stored(schedule), TxnNow(Run(schedule), r, now)).Success?
    requires r.Locate? ==> NewEvent(Stored(schedule), r.session, r.fix)
    ensures Commits(schedule, more, TxnNow(Run(schedule), r, now))
  {
    hide Atomically;
    hide Commits;
    hide NewEvent;
    match r {
      case Create(key, intent, once) => more := CreateRunsAlone(schedule, key, intent, once, now);
      case OnOrder(key, c, start) => more := CommandRunsAlone(schedule, key, c, start, now);
      case Locate(key, executor, fix) => more := LocateRunsAlone(schedule, key, executor, fix, now);
    }
  }

  // An order on its way ---------------------------------------------------------------------------------

  /** The executor occupies no order of the organization. */
  ghost predicate Free(orders: map<Key, Order>, org: string, who: string) {
    forall k :: k in orders ==> Occupant(orders[k]) != Some((org, who))
  }

  lemma RoomForFree(orders: map<Key, Order>, key: Key, o: Order, who: string)
    requires Roomy(orders) && Free(orders, key.0, who) && Occupant(o) == Some((key.0, who))
    ensures Roomy(orders + map[key := o])
  {
  }

  /** The order after assignment, acceptance and departure. */
  lemma SetsOut(key: Key, number: string, intent: Intent, who: string) returns (o1: Order, o2: Order, o3: Order, o4: Order)
    requires Named(key, intent) && number != "" && who != ""
    ensures Submit(key, number, intent).Success? && o1 == Submit(key, number, intent).value.order && Occupant(o1) == None
    ensures Decide(o1, Command.Assign(who, None)).Success? && o2 == Decide(o1, Command.Assign(who, None)).value.order
    ensures Decide(o2, Command.Accept(who)).Success? && o3 == Decide(o2, Command.Accept(who)).value.order
    ensures Decide(o3, Command.StartTravel(who)).Success? && o4 == Decide(o3, Command.StartTravel(who)).value.order
    ensures Occupant(o2) == Occupant(o3) == Occupant(o4) == Some((key.0, who))
  {
    o1 := Submit(key, number, intent).value.order;
    o2 := Decide(o1, Command.Assign(who, None)).value.order;
    o3 := Decide(o2, Command.Accept(who)).value.order;
    o4 := Decide(o3, Command.StartTravel(who)).value.order;
  }

  lemma CreateData(d: Data, t: Txn)
    requires Good(d) && t.request.Create? && t.number != "" && t.request.key !in d.orders
    requires Submit(t.request.key, t.number, t.request.intent).Success?
    ensures var o := Submit(t.request.key, t.number, t.request.intent).value.order;
            && Atomically(d, t).Success?
            && Atomically(d, t).value.orders == d.orders[t.request.key := o] && Atomically(d, t).value.sessions == d.sessions
  {
    hide Good;
    CreateAlone(d, t);
  }

  lemma CommandData(d: Data, key: Key, c: Command, start: SessionStart)
    requires key in d.orders && Decide(d.orders[key], c).Success? && SessionPart(d, key, c, start).Success?
    requires Roomy(d.orders + map[key := Decide(d.orders[key], c).value.order])
    ensures var o, part := Decide(d.orders[key], c).value.order, SessionPart(d, key, c, start).value;
            var r := Atomically(d, Txn(OnOrder(key, c, start), "", 0));
            && r.Success? && r.value.orders == d.orders[key := o]
            && r.value.sessions == match part case None => d.sessions case Some(y) => d.sessions[y.session.Key() := y.session]
  {
    hide Decide;
    hide SessionPart;
    hide Roomy;
  }

  /** A new order is submitted. */
  lemma OneSubmission(schedule: seq<Action>, key: Key, intent: Intent) returns (more: seq<Action>, number: string)
    requires Named(key, intent) && key !in Stored(schedule).orders
    ensures number != "" && Submit(key, number, intent).Success?
    ensures var o := Submit(key, number, intent).value.order;
            Stored(schedule + more).orders == Stored(schedule).orders[key := o]
    ensures Stored(schedule + more).sessions == Stored(schedule).sessions
  {
    hide Good;
    hide Submit;
    hide Atomically;
    hide Run;
    var t := TxnNow(Run(schedule), Request.Create(key, intent, false), 0);
    number := t.number;
    NumbersShow(NextSequence(Run(schedule).counters, key.0));
    var o1, o2, o3, o4 := SetsOut(key, number, intent, "someone");
    StoredIsGood(schedule);
    CreateData(Stored(schedule), t);
    more := CreateRunsAlone(schedule, key, intent, false, 0);
  }

  /** From any reachable configuration a new order can be brought on its way by a free executor. */
  lemma OrderSetsOut(schedule: seq<Action>, key: Key, intent: Intent, who: string, start: SessionStart) returns (more: seq<Action>)
    requires Named(key, intent) && who != "" && key !in Stored(schedule).orders && Free(Stored(schedule).orders, key.0, who)
    requires Begin(key, who, start).Success? && Begin(key, who, start).value.session.Key() !in Stored(schedule).sessions
    ensures var d, d', s := Stored(schedule), Stored(schedule + more), Begin(key, who, start).value.session;
            && d'.sessions == d.sessions[s.Key() := s]
            && d'.orders.Keys == d.orders.Keys + {key} && Occupant(d'.orders[key]) == Some((key.0, who))
            && forall k :: k in d.orders ==> d'.orders[k] == d.orders[k]
  {
    hide Decide;
    hide Submit;
    hide Begin;
    hide Occupant;
    hide Roomy;
    hide Free;
    hide Stored;
    hide SessionPart;
    var orders := Stored(schedule).orders;
    var m1, number := OneSubmission(schedule, key, intent);
    var o1, o2, o3, o4 := SetsOut(key, number, intent, who);
    GoodRooms(schedule);
    RoomForFree(orders, key, o2, who);
    SameRoom(orders, key, o2, o3);
    SameRoom(orders, key, o3, o4);
    var s1 := schedule + m1;
    var m2 := OneCommand(s1, orders, key, o1, o2, Command.Assign(who, None), NO_START);
    var s2 := s1 + m2;
    var m3 := OneCommand(s2, orders, key, o2, o3, Command.Accept(who), NO_START);
    var s3 := s2 + m3;
    Departs(Stored(s3), key, Command.StartTravel(who), start);
    var m4 := OneCommand(s3, orders, key, o3, o4, Command.StartTravel(who), start);
    more := m1 + m2 + m3 + m4;
    assert schedule + more == s3 + m4;
  }

  lemma GoodRooms(schedule: seq<Action>)
    ensures Roomy(Stored(schedule).orders)
  {
    StoredIsGood(schedule);
  }

  lemma SameRoom(orders: map<Key, Order>, key: Key, o: Order, o': Order)
    requires Roomy(orders + map[key := o]) && Occupant(o) == Occupant(o')
    ensures Roomy(orders + map[key := o'])
  {
    hide Occupant;
    var before, after := orders + map[key := o], orders + map[key := o'];
    assert forall k :: k in after ==> k in before && Occupant(after[k]) == Occupant(before[k]);
  }

  lemma Departs(d: Data, key: Key, c: Command, start: SessionStart)
    requires c.StartTravel? && Begin(key, c.executor, start).Success? && Begin(key, c.executor, start).value.session.Key() !in d.sessions
    ensures SessionPart(d, key, c, start) == Success(Some(Begin(key, c.executor, start).value))
  {
    hide Begin;
  }

  lemma OneCommand(schedule: seq<Action>, others: map<Key, Order>, key: Key, o: Order, o': Order, c: Command, start: SessionStart)
    returns (more: seq<Action>)
    requires Stored(schedule).orders == others[key := o] && !Ends(c)
    requires Decide(o, c).Success? && o' == Decide(o, c).value.order && Roomy(others + map[key := o'])
    requires c.StartTravel? ==>
               && Begin(key, c.executor, start).Success?
               && SessionPart(Stored(schedule), key, c, start) == Success(Some(Begin(key, c.executor, start).value))
    ensures Stored(schedule + more).orders == others[key := o']
    ensures var d := Stored(schedule);
            Stored(schedule + more).sessions ==
            if c.StartTravel? then
              var y := Begin(key, c.executor, start).value.session; d.sessions[y.Key() := y]
            else d.sessions
  {
    hide Decide;
    hide Begin;
    hide Roomy;
    hide Atomically;
    hide Run;
    var d := Stored(schedule);
    if !c.StartTravel? { NoPart(d, key, c, start); }
    hide SessionPart;
    assert d.orders + map[key := o'] == others + map[key := o'];
    CommandData(d, key, c, start);
    more := CommandRunsAlone(schedule, key, c, start, 0);
  }

  // The race for a source event ---------------------------------------------------------------------------

  lemma LocateData(d: Data, t: Txn)
    requires Good(d) && t.request.Locate? && t.request.session in d.sessions && d.sessions[t.request.session].executor == t.request.executor
    requires Observe(d.sessions[t.request.session], t.request.fix, t.now).Success?
    ensures var y := Observe(d.sessions[t.request.session], t.request.fix, t.now).value;
            && Atomically(d, t).Success? && Good(Atomically(d, t).value)
            && Atomically(d, t).value.sessions == d.sessions[t.request.session := y.session]
  {
    hide Observe;
    hide Good;
    hide Roomy;
    GoodIsRoomy(d);
    assert d.orders + map[] == d.orders;
    GoodAfter(d, t);
  }

  lemma LocateReports(s: Session, fix: Fix, now: int)
    requires Observe(s, fix, now).Success? && fix.eventId.Some? && !HasEventId(s.points, fix.eventId.value)
    ensures SessionReports(Observe(s, fix, now).value.session, fix.source, fix.eventId.value)
    ensures HasEventId(Observe(s, fix, now).value.session.points, fix.eventId.value)
  {
    hide PointOk;
    var points := Observe(s, fix, now).value.session.points;
    assert points[|s.points|] == Stamped(s, fix, now);
    assert Reports(points[|s.points|], fix.source, fix.eventId.value);
  }

  /** Whenever two sessions under way could both take an event nobody has, two `record_location`
      units can both look for it before either commits. Both succeed and both sessions store it,
      where the second command, run serially, would have dropped it. */
  lemma SourceEventRaces(schedule: seq<Action>, k1: Key, e1: string, k2: Key, e2: string, fix: Fix, now: int) returns (more: seq<Action>)
    requires var d := Stored(schedule);
             && k1 in d.sessions && k2 in d.sessions && k1 != k2 && k1.0 == k2.0
             && d.sessions[k1].executor == e1 && d.sessions[k2].executor == e2
             && Observe(d.sessions[k1], fix, now).Success? && Observe(d.sessions[k2], fix, now).Success?
             && fix.eventId.Some? && !HasSourceEvent(d.sessions, k1.0, fix.source, fix.eventId.value)
             && !HasEventId(d.sessions[k1].points, fix.eventId.value) && !HasEventId(d.sessions[k2].points, fix.eventId.value)
    ensures var c, c' := Run(schedule), Run(schedule + more);
            var t1, t2 := Txn(Locate(k1, e1, fix), "", now), Txn(Locate(k2, e2, fix), "", now);
            var n := |c.units|;
            && c'.history == c.history + [t1, t2]
            && |c'.units| == n + 2 && c'.units[n].request == t1.request && c'.units[n + 1].request == t2.request
            && c'.units[n].outcome == c'.units[n + 1].outcome == Some(Returned(None))
            && k1 in c'.data.sessions && SessionReports(c'.data.sessions[k1], fix.source, fix.eventId.value)
            && k2 in c'.data.sessions && SessionReports(c'.data.sessions[k2], fix.source, fix.eventId.value)
            && Atomically(c.data, t1).Success?
            && CheckedLocate(Atomically(c.data, t1).value, t2) == Atomically(c.data, t1) != Success(c'.data)
  {
    hide Good;
    hide Observe;
    hide HasSourceEvent;
    hide HasEventId;
    hide SessionReports;
    hide CommitTo;
    hide Atomically;
    hide ReadsTo;
    hide Run;
    hide Fresh;
    var c, d := Run(schedule), Stored(schedule);
    var r1, r2, i := Locate(k1, e1, fix), Locate(k2, e2, fix), |c.units|;
    var t1, t2 := Txn(r1, "", now), Txn(r2, "", now);
    StoredIsGood(schedule);
    var v1 := LocateReads(d, k1, e1, fix, now);
    var v2 := LocateReads(d, k2, e2, fix, now);
    var y1, y2 := Observe(d.sessions[k1], fix, now).value, Observe(d.sessions[k2], fix, now).value;
    LocateAlone(d, t1, y1);
    LocateData(d, t1);
    var d1 := Atomically(d, t1).value;
    assert d1.sessions[k2] == d.sessions[k2];
    LocateAlone(d1, t2, y2);
    LocateData(d1, t2);
    var d2 := Atomically(d1, t2).value;
    LocateReports(d.sessions[k1], fix, now);
    LocateReports(d.sessions[k2], fix, now);
    more := Race(schedule, r1, r2, now, v1, v2, d1, d2);
    KnownThen(d1, k1, k2.0, fix);
    LocateSerializesExactly(d1, t2);
    assert d2.sessions[k2] != d1.sessions[k2] by { if d2.sessions[k2] == d1.sessions[k2] { assert false; } }
    CheckedDrops(d1, t2);
  }

  lemma KnownThen(d: Data, k: Key, org: string, fix: Fix)
    requires Good(d) && k in d.sessions && k.0 == org && fix.eventId.Some? && SessionReports(d.sessions[k], fix.source, fix.eventId.value)
    ensures HasSourceEvent(d.sessions, org, fix.source, fix.eventId.value)
  {
    assert d.sessions[k].Key() == k;
  }

  lemma CheckedDrops(d: Data, t: Txn)
    requires t.request.Locate? && t.request.session in d.sessions && d.sessions[t.request.session].executor == t.request.executor
    requires t.request.fix.eventId.Some? && HasSourceEvent(d.sessions, t.request.session.0, t.request.fix.source, t.request.fix.eventId.value)
    ensures CheckedLocate(d, t) == Success(d)
  {
    hide HasSourceEvent;
    hide Atomically;
  }

  /** Two units have been spawned and have read everything. */
  lemma BothRead(schedule: seq<Action>, r1: Request, r2: Request, now: int, v1: Unit, v2: Unit) returns (read: seq<Action>)
    requires ReadsTo(Fresh(r1), Run(schedule).data, now, v1, 4) && ReadsTo(Fresh(r2), Run(schedule).data, now, v2, 4)
    ensures var c := Run(schedule); Run(schedule + read) == c.(units := c.units + [v1] + [v2])
  {
    hide ReadsTo;
    hide Run;
    hide Fresh;
    var c, i := Run(schedule), |Run(schedule).units|;
    var s1 := schedule + [Spawn(r1)];
    Spawned(schedule, r1);
    var s2 := s1 + Turns(i, now, 4);
    assert (c.units + [Fresh(r1)])[i] == Fresh(r1);
    TurnsRead(s1, i, now, v1, 4);
    LastReplaced(c.units, Fresh(r1), v1);
    var s3 := s2 + [Spawn(r2)];
    Spawned(s2, r2);
    var before := c.units + [v1];
    assert |before| == i + 1 && (before + [Fresh(r2)])[i + 1] == Fresh(r2);
    TurnsRead(s3, i + 1, now, v2, 4);
    LastReplaced(before, Fresh(r2), v2);
    read := [Spawn(r1)] + Turns(i, now, 4) + [Spawn(r2)] + Turns(i + 1, now, 4);
    assert schedule + read == s3 + Turns(i + 1, now, 4);
  }

  /** The first of the two commits, then the second. */
  lemma BothCommit(schedule: seq<Action>, before: seq<Unit>, v1: Unit, v2: Unit, now: int, d1: Data, d2: Data)
    requires Run(schedule).units == before + [v1] + [v2] && v1.call == CommitWrites && v2.call == CommitWrites
    requires CommitTo(Run(schedule).data, v1.staging) == Success(d1) && CommitTo(d1, v2.staging) == Success(d2)
    ensures var c, i := Run(schedule), |before|;
            Run(schedule + [Advance(i, now)] + [Advance(i + 1, now)])
            == Config(d2, c.counters, before + [Succeeded(v1)] + [Succeeded(v2)], c.history + [TxnOf(v1)] + [TxnOf(v2)])
  {
    hide CommitTo;
    hide Run;
    hide Succeeded;
    hide TxnOf;
    var i := |before|;
    assert (before + [v1] + [v2])[i] == v1;
    CommitTurn(schedule, i, now, d1);
    MiddleReplaced(before, v1, Succeeded(v1), v2);
    assert (before + [Succeeded(v1)] + [v2])[i + 1] == v2;
    CommitTurn(schedule + [Advance(i, now)], i + 1, now, d2);
    LastReplaced(before + [Succeeded(v1)], v2, Succeeded(v2));
  }

  lemma MiddleReplaced<T>(items: seq<T>, a: T, b: T, last: T)
    ensures (items + [a] + [last])[|items| := b] == items + [b] + [last]
  {
  }

  /** Two units read everything before either commits; both commits then go through. */
  lemma Race(schedule: seq<Action>, r1: Request, r2: Request, now: int, v1: Unit, v2: Unit, d1: Data, d2: Data) returns (more: seq<Action>)
    requires r1.Locate? && r2.Locate?
    requires ReadsTo(Fresh(r1), Run(schedule).data, now, v1, 4) && v1.call == CommitWrites && v1.decision.None?
    requires ReadsTo(Fresh(r2), Run(schedule).data, now, v2, 4) && v2.call == CommitWrites && v2.decision.None?
    requires CommitTo(Run(schedule).data, v1.staging) == Success(d1) && CommitTo(d1, v2.staging) == Success(d2)
    ensures var c := Run(schedule);
            Run(schedule + more) == Config(d2, c.counters, c.units + [Succeeded(v1)] + [Succeeded(v2)], c.history + [TxnOf(v1)] + [TxnOf(v2)])
    ensures Succeeded(v1).outcome == Succeeded(v2).outcome == Some(Returned(None))
  {
    hide ReadsTo;
    hide CommitTo;
    hide Run;
    hide Fresh;
    hide TxnOf;
    var units := Run(schedule).units;
    var read := BothRead(schedule, r1, r2, now, v1, v2);
    BothCommit(schedule + read, units, v1, v2, now, d1, d2);
    more := read + [Advance(|units|, now)] + [Advance(|units| + 1, now)];
    assert schedule + more == schedule + read + [Advance(|units|, now)] + [Advance(|units| + 1, now)];
  }

  const LETTERS := "abcdefghijklmnopqrstuvwxyzabcdefghijklmnopqrst"
  const ERRAND := Intent("repair", "telegram:1", None, map[], Evidence(0, false, false, false))
  const SIGHTING := Fix(55.0, 37.0, Telegram, None, None, Some("e"))

  function StartNamed(id: string): SessionStart {
    SessionStart(id, "A" + LETTERS, "B" + LETTERS)
  }

  lemma TokensAreOk(id: string, key: Key, who: string)
    requires id != "" && key.0 != "" && key.1 != "" && who != ""
    ensures Begin(key, who, StartNamed(id)).Success?
    ensures var s := Begin(key, who, StartNamed(id)).value.session;
            s.Key() == (key.0, id) && s.executor == who && s.points == [] && s.status == Active
  {
    var a, b := "A" + LETTERS, "B" + LETTERS;
    assert !IsSpace(a[0]) && !IsSpace(b[0]) && a[0] != b[0];
    assert |a| == 47 && |b| == 47;
  }

  lemma SightingIsOk(s: Session, now: int)
    requires s.status == Active && s.points == []
    ensures Observe(s, SIGHTING, now).Success?
  {
    assert !IsSpace("e"[0]);
  }

  lemma NobodyKnows(sessions: map<Key, Session>, org: string, source: LocationSource, eventId: string)
    requires forall k :: k in sessions ==> sessions[k].points == []
    ensures !HasSourceEvent(sessions, org, source, eventId)
  {
  }

  /** A run from the empty store: two orders are submitted, assigned, accepted and set out, and
      then two `record_location` units report one event, each looking for it before the other
      commits. Both succeed, and the organization holds the event twice. */
  lemma OneSourceEventTwice() returns (schedule: seq<Action>, first: Key, second: Key)
    ensures var d, units := Stored(schedule), Run(schedule).units;
            && |units| >= 2
            && units[|units| - 2].request == Locate(first, "ann", SIGHTING) && units[|units| - 1].request == Locate(second, "bob", SIGHTING)
            && units[|units| - 2].outcome == units[|units| - 1].outcome == Some(Returned(None))
            && first != second && first.0 == second.0
            && first in d.sessions && SessionReports(d.sessions[first], Telegram, "e")
            && second in d.sessions && SessionReports(d.sessions[second], Telegram, "e")
  {
    hide Begin;
    hide StartNamed;
    hide Stored;
    hide Run;
    hide Observe;
    hide SessionReports;
    hide HasSourceEvent;
    hide HasEventId;
    var w1, w2 := ("o", "w1"), ("o", "w2");
    first, second := ("o", "s1"), ("o", "s2");
    StoresNothing();
    TokensAreOk("s1", w1, "ann");
    TokensAreOk("s2", w2, "bob");
    var m1 := OrderSetsOut([], w1, ERRAND, "ann", StartNamed("s1"));
    assert [] + m1 == m1;
    BobIsFree(Stored(m1).orders, w1);
    var m2 := OrderSetsOut(m1, w2, ERRAND, "bob", StartNamed("s2"));
    var before := m1 + m2;
    var d := Stored(before);
    assert d.sessions[first] == Begin(w1, "ann", StartNamed("s1")).value.session;
    assert d.sessions[second] == Begin(w2, "bob", StartNamed("s2")).value.session;
    SightingIsOk(d.sessions[first], 7);
    SightingIsOk(d.sessions[second], 7);
    NobodyKnows(d.sessions, "o", Telegram, "e");
    NoPointsNoEvent("e");
    var more := SourceEventRaces(before, first, "ann", second, "bob", SIGHTING, 7);
    schedule := before + more;
    StoredIs(schedule);
  }

  lemma StoresNothing()
    ensures Stored([]) == EMPTY
  {
  }

  lemma StoredIs(schedule: seq<Action>)
    ensures Stored(schedule) == Run(schedule).data
  {
  }

  lemma NoPointsNoEvent(eventId: string)
    ensures !HasEventId([], eventId)
  {
  }

  lemma BobIsFree(orders: map<Key, Order>, key: Key)
    requires orders.Keys == {key} && Occupant(orders[key]) == Some(("o", "ann"))
    ensures Free(orders, "o", "bob")
  {
  }
}
