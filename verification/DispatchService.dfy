/** The application service as it is written: each command opens a unit of work on
    the store, reads, mutates, stages and commits. With the store to itself, every
    command has exactly the effect of its transaction. */
module DispatchService {
  import opened Prelude
  import opened Domain
  import opened WorkOrders
  import opened Tracking
  import opened MemoryStore
  import opened Service
  import opened Interleaving
  import opened Guarantees

  const NO_START := SessionStart("", "", "")

  /** The store a command leaves, given the effect of its transaction. */
  ghost predicate Effected<T>(effect: Result<Data>, r: Result<T>, before: Data, after: Data) {
    match effect
    case Failure(e) => r == Failure(e) && after == before
    case Success(d) => r.Success? && after == d
  }

  /** The identifiers every order must carry. */
  predicate Named(key: Key, intent: Intent) {
    key.0 != "" && key.1 != "" && intent.workType != ""
  }

  function OrderWrite(o: Order, expected: Option<nat>): map<Key, Staged<Order>> {
    map[o.Key() := Staged(o, expected)]
  }

  function SessionWrite(s: Session, expected: Option<nat>): map<Key, Staged<Session>> {
    map[s.Key() := Staged(s, expected)]
  }

  class AsyncDispatchService {
    const store: AsyncMemoryStore

    constructor (store: AsyncMemoryStore)
      ensures this.store == store
    {
      this.store := store;
    }

    method CreateNewOrder(key: Key, intent: Intent) returns (r: Result<Order>, number: string)
      requires Good(store.State())
      modifies store
      ensures Effected(Atomically(old(store.State()), Txn(Create(key, intent, false), number, 0)), r, old(store.State()), store.State())
      ensures Good(store.State())
      ensures r.Success? ==> key in store.orders && r.value == store.orders[key] && r.value.intent == intent
      ensures r.Success? <==> Named(key, intent) && key !in old(store.orders)
      ensures r.Failure? ==> r.error == if Named(key, intent) then ConcurrencyConflict else ValueError
    {
      hide Good;
      hide Atomically;
      hide CommitTo;
      hide Submit;
      ghost var d := store.State();
      var uow := new UnitOfWork(store);
      number := uow.AllocatePublicNumber(key.0);
      CreateAlone(d, Txn(Create(key, intent, false), number, 0));
      var created := WorkOrder.Create(key, number, intent);
      if created.Failure? { return Failure(created.error), number; }
      var order := created.value;
      uow.SaveOrder(order, None);
      var events := order.PullEvents();
      uow.AddEvents(events);
      assert uow.State() == Staging(OrderWrite(order.State(), None), map[], events);
      var done := uow.Commit();
      return if done.Success? then Success(order.State()) else Failure(done.error), number;
    }

    /** Creates the order once: a repeated submission gets the stored order back,
        a different one under the same id conflicts, and nothing is ever missing. */
    method CreateOrderOnce(key: Key, intent: Intent) returns (r: Result<Order>)
      requires Good(store.State())
      modifies store
      ensures Good(store.State())
      ensures r.Success? ==> key in store.orders && r.value == store.orders[key] && r.value.intent == intent
      ensures key in old(store.orders) ==> store.State() == old(store.State())
      ensures key in old(store.orders) && Named(key, intent) ==>
                r == if old(store.orders)[key].intent == intent then Success(old(store.orders)[key]) else Failure(ConcurrencyConflict)
      ensures key !in old(store.orders) ==> (r.Success? <==> Named(key, intent))
      ensures r.Failure? ==> store.State() == old(store.State())
      ensures key !in old(store.orders) && Named(key, intent) ==>
                exists number :: Atomically(old(store.State()), Txn(Create(key, intent, false), number, 0)) == Success(store.State())
    {
      hide Good;
      hide Atomically;
      hide CommitTo;
      var number: string;
      r, number := CreateNewOrder(key, intent);
      if r == Failure(ConcurrencyConflict) {
        var uow := new UnitOfWork(store);
        var found := uow.GetOrder(key);
        if found.Failure? { assert false; }
        var existing := found.value.State();
        if existing.intent != intent { return Failure(ConcurrencyConflict); }
        EmptyAlone(store.State());
        var done := uow.Commit();
        if done.Failure? { assert false; }
        return Success(existing);
      }
    }

    /** The mutation a plain command applies to the order it was handed. */
    method Change(order: WorkOrder, c: Command) returns (r: Result<()>)
      requires !c.StartTravel? && !Ends(c)
      modifies order
      ensures order.Obeyed(c, r, old(order.State()), old(order.events))
    {
      match c {
        case ClaimCoordination(who) => r := order.ClaimCoordination(who);
        case PublishPool(mode, actor) => r := order.PublishPool(mode, actor);
        case ExpressInterest(who) => r := order.ExpressInterest(who);
        case WithdrawInterest(who) => r := order.WithdrawInterest(who);
        case ClaimFirst(who) => r := order.ClaimFirst(who);
        case Assign(who, actor) => r := order.Assign(who, actor);
        case Accept(who) => r := order.Accept(who);
        case RejectAssignment(who) => r := order.RejectAssignment(who);
        case StartWork(who) => r := order.StartWork(who);
      }
    }

    method ChangeOrder(key: Key, c: Command) returns (r: Result<Order>)
      requires Good(store.State()) && !c.StartTravel? && !Ends(c)
      modifies store
      ensures Effected(Atomically(old(store.State()), Txn(OnOrder(key, c, NO_START), "", 0)), r, old(store.State()), store.State())
      ensures r.Success? ==> key in store.orders && r.value == store.orders[key]
      ensures Good(store.State())
    {
      hide Decide;
      hide Good;
      hide Atomically;
      hide CommitTo;
      ghost var d, t := store.State(), Txn(OnOrder(key, c, NO_START), "", 0);
      RefusedAlone(d, t);
      var uow := new UnitOfWork(store);
      var found := uow.GetOrder(key);
      if found.Failure? { return Failure(found.error); }
      var order := found.value;
      var expected := order.version;
      var changed := Change(order, c);
      if changed.Failure? { return Failure(changed.error); }
      ghost var x := Decide(d.orders[key], c).value;
      uow.SaveOrder(order, Some(expected));
      var events := order.PullEvents();
      uow.AddEvents(events);
      CommandAlone(d, t, x, None);
      assert uow.State() == AloneStaging(d, key, x, None);
      var done := uow.Commit();
      if done.Success? { CommandStores(d, t); }
      return if done.Success? then Success(order.State()) else Failure(done.error);
    }

    /** Opens the tracking session of a departure and stages it. */
    method StageDeparture(uow: UnitOfWork, key: Key, who: string, start: SessionStart) returns (r: Result<seq<Event>>)
      modifies uow`stagedSessions
      ensures match Begin(key, who, start)
              case Failure(e) => r == Failure(e) && uow.stagedSessions == old(uow.stagedSessions)
              case Success(y) =>
                r == Success(Noted(y)) && uow.stagedSessions == old(uow.stagedSessions)[y.session.Key() := Staged(y.session, None)]
    {
      var started := TrackingSession.Start(key, who, start);
      if started.Failure? { return Failure(started.error); }
      uow.SaveSession(started.value, None);
      var events := started.value.PullEvents();
      return Success(events);
    }

    /** Closes the active session of an order that ends and stages it. */
    method StageClosing(uow: UnitOfWork, active: Session, c: Command) returns (events: seq<Event>)
      requires Ends(c) && Close(active, Reason(c)).Success?
      modifies uow`stagedSessions
      ensures var y := Close(active, Reason(c)).value;
              && events == Noted(y)
              && uow.stagedSessions == old(uow.stagedSessions)[y.session.Key() := Staged(y.session, Some(active.version))]
    {
      hide Close;
      var session := new TrackingSession.Restore(active);
      var expected := session.version;
      var closed: Result<()>;
      if c.Complete? { closed := session.Complete(); } else { closed := session.Cancel(c.reason); }
      uow.SaveSession(session, Some(expected));
      events := session.PullEvents();
    }

    method StartTravel(key: Key, who: string, start: SessionStart) returns (r: Result<Order>)
      requires Good(store.State())
      modifies store
      ensures Effected(Atomically(old(store.State()), Txn(OnOrder(key, Command.StartTravel(who), start), "", 0)),
                       r, old(store.State()), store.State())
      ensures r.Success? ==> key in store.orders && r.value == store.orders[key]
      ensures Good(store.State())
    {
      hide Decide;
      hide Begin;
      hide Good;
      hide Atomically;
      hide CommitTo;
      ghost var d, c := store.State(), Command.StartTravel(who);
      ghost var t := Txn(OnOrder(key, c, start), "", 0);
      RefusedAlone(d, t);
      var uow := new UnitOfWork(store);
      var found := uow.GetOrder(key);
      if found.Failure? { return Failure(found.error); }
      var order := found.value;
      var expected := order.version;
      var changed := order.StartTravel(who);
      if changed.Failure? { return Failure(changed.error); }
      ghost var x := Decide(d.orders[key], c).value;
      KeyedAlone(d, key, c);
      var sessionEvents := StageDeparture(uow, (order.org, order.id), who, start);
      if sessionEvents.Failure? { return Failure(sessionEvents.error); }
      ghost var y := Begin(key, who, start).value;
      uow.SaveOrder(order, Some(expected));
      var orderEvents := order.PullEvents();
      uow.AddEvents(orderEvents + sessionEvents.value);
      TravelAlone(d, t, x, y);
      assert uow.State() == Staging(OrderWrite(x.order, Some(expected)), SessionWrite(y.session, None), Recorded(x) + Noted(y));
      var done := uow.Commit();
      if done.Success? { CommandStores(d, t); }
      return if done.Success? then Success(order.State()) else Failure(done.error);
    }

    method End(order: WorkOrder, c: Command) returns (r: Result<()>)
      requires Ends(c)
      modifies order
      ensures order.Obeyed(c, r, old(order.State()), old(order.events))
    {
      match c {
        case Complete(who, report) => r := order.Complete(who, report);
        case Cancel(reason, actor) => r := order.Cancel(reason, actor);
      }
    }

    /** `complete_order` and `cancel_order`: the order first, then its active session if there is one. */
    method EndOrder(key: Key, c: Command) returns (r: Result<Order>)
      requires Good(store.State()) && Ends(c)
      modifies store
      ensures Effected(Atomically(old(store.State()), Txn(OnOrder(key, c, NO_START), "", 0)), r, old(store.State()), store.State())
      ensures r.Success? ==> key in store.orders && r.value == store.orders[key]
      ensures Good(store.State())
    {
      hide Decide;
      hide Close;
      hide Good;
      hide Atomically;
      hide CommitTo;
      hide FindActive;
      hide SessionPart;
      hide Recorded;
      hide Noted;
      hide Occupant;
      hide Reason;
      assert !c.StartTravel?;
      hide Ends;
      ghost var d, t := store.State(), Txn(OnOrder(key, c, NO_START), "", 0);
      RefusedAlone(d, t);
      var uow := new UnitOfWork(store);
      var found := uow.GetOrder(key);
      if found.Failure? { return Failure(found.error); }
      var order := found.value;
      var expected := order.version;
      var changed := End(order, c);
      if changed.Failure? { return Failure(changed.error); }
      ghost var x := Decide(d.orders[key], c).value;
      uow.SaveOrder(order, Some(expected));
      EndPart(d, key, c, NO_START);
      var active := uow.FindActiveForOrder(key);
      var events := order.PullEvents();
      ghost var part: Option<SessionDecision> := None;
      if active.value.Some? {
        part := Some(Close(active.value.value, Reason(c)).value);
        var more := StageClosing(uow, active.value.value, c);
        events := events + more;
      }
      uow.AddEvents(events);
      CommandAlone(d, t, x, part);
      assert uow.State() == AloneStaging(d, key, x, part);
      var done := uow.Commit();
      if done.Success? { CommandStores(d, t); }
      return if done.Success? then Success(order.State()) else Failure(done.error);
    }

    /** The point of a fix; a time that would run backwards becomes the later of now and the latest point. */
    method Stamp(session: TrackingSession, fix: Fix, now: int) returns (point: Point)
      ensures point == Stamped(session.State(), fix, now)
    {
      var observed := if fix.captured.Some? then fix.captured.value else now;
      if session.points != [] && observed < session.points[|session.points| - 1].capturedAt {
        var latest := session.points[|session.points| - 1].capturedAt;
        observed := if now >= latest then now else latest;
      }
      point := Point(fix.latitude, fix.longitude, observed, now, fix.source, fix.accuracy, fix.eventId);
    }

    method RecordLocation(key: Key, executor: string, fix: Fix, now: int) returns (r: Result<Session>)
      requires Good(store.State())
      modifies store
      ensures Effected(CheckedLocate(old(store.State()), Txn(Locate(key, executor, fix), "", now)), r, old(store.State()), store.State())
      ensures r.Success? ==> key in store.sessions && r.value == store.sessions[key]
      ensures Good(store.State())
    {
      hide Good;
      hide Atomically;
      hide CommitTo;
      hide HasSourceEvent;
      hide PointOk;
      hide Extend;
      hide Noted;
      hide Stamped;
      ghost var d, t := store.State(), Txn(Locate(key, executor, fix), "", now);
      RefusedAlone(d, t);
      var uow := new UnitOfWork(store);
      var found := uow.GetSession(key);
      if found.Failure? { return Failure(found.error); }
      var session := found.value;
      if session.executor != executor { return Failure(InvalidTransition); }
      if fix.eventId.Some? && HasSourceEvent(store.sessions, key.0, fix.source, fix.eventId.value) {
        EmptyAlone(d);
        var done := uow.Commit();
        if done.Failure? { assert false; }
        return Success(session.State());
      }
      var expected := session.version;
      var point := Stamp(session, fix, now);
      if !PointOk(point) { return Failure(ValueError); }
      var added := session.AddPoint(point);
      if added.Failure? { return Failure(added.error); }
      ghost var y := Observe(d.sessions[key], fix, now).value;
      uow.SaveSession(session, Some(expected));
      var events := session.PullEvents();
      uow.AddEvents(events);
      LocateAlone(d, t, y);
      assert uow.State() == Staging(map[], SessionWrite(y.session, Some(expected)), Noted(y));
      var done := uow.Commit();
      if done.Success? { LocationStores(d, t); }
      return if done.Success? then Success(session.State()) else Failure(done.error);
    }
  }

  // A unit of work alone on the store commits exactly its transaction ------------------

  function AloneStaging(d: Data, key: Key, x: Decision, part: Option<SessionDecision>): Staging
    requires key in d.orders
    requires part.Some? ==> part.value.session.Key() in d.sessions
  {
    var orders := OrderWrite(x.order, Some(d.orders[key].version));
    match part
    case None => Staging(orders, map[], Recorded(x))
    case Some(y) =>
      Staging(orders, SessionWrite(y.session, Some(d.sessions[y.session.Key()].version)), Recorded(x) + Noted(y))
  }

  lemma EmptyAlone(d: Data)
    requires Good(d)
    ensures CommitTo(d, NOTHING) == Success(d)
  {
    MergedNone(d.orders);
    MergedNone(d.sessions);
    assert d.outbox + [] == d.outbox;
  }

  /** A command that fails before its commit fails as its transaction does. */
  lemma RefusedAlone(d: Data, t: Txn)
    requires Good(d) && !t.request.Create?
    ensures t.request.OnOrder? ==>
              var OnOrder(key, c, start) := t.request;
              && (key !in d.orders ==> Atomically(d, t) == Failure(NotFound))
              && (key in d.orders && Decide(d.orders[key], c).Failure? ==> Atomically(d, t) == Failure(Decide(d.orders[key], c).error))
              && (key in d.orders && Decide(d.orders[key], c).Success? && c.StartTravel? && Begin(key, c.executor, start).Failure? ==>
                    Atomically(d, t) == Failure(Begin(key, c.executor, start).error))
    ensures t.request.Locate? ==>
              var Locate(key, executor, fix) := t.request;
              && (key in d.sessions && d.sessions[key].executor == executor && Observe(d.sessions[key], fix, t.now).Failure? ==>
                    Atomically(d, t) == Failure(Observe(d.sessions[key], fix, t.now).error))
  {
    hide Good;
    hide Decide;
    hide Begin;
    hide Observe;
  }

  lemma KeyedAlone(d: Data, key: Key, c: Command)
    requires Good(d) && key in d.orders && Decide(d.orders[key], c).Success?
    ensures Decide(d.orders[key], c).value.order.Key() == key == d.orders[key].Key()
  {
    DecisionsMove(d.orders[key], c);
  }

  lemma ActiveAlone(d: Data, key: Key, c: Command)
    requires Good(d)
    ensures FindActive(d.sessions, key).Success?
    ensures var found := FindActive(d.sessions, key).value;
            found.Some? ==> found.value.Key() in d.sessions && d.sessions[found.value.Key()] == found.value
                            && Close(found.value, Reason(c)).Success?
                            && Close(found.value, Reason(c)).value.session.Key() == found.value.Key()
  {
    FindActiveSucceeds(d, key);
  }

  lemma EndPart(d: Data, key: Key, c: Command, start: SessionStart)
    requires Good(d) && Ends(c)
    ensures FindActive(d.sessions, key).Success?
    ensures var found := FindActive(d.sessions, key).value;
            && (found.None? ==> SessionPart(d, key, c, start) == Success(None))
            && (found.Some? ==>
                  && found.value.Key() in d.sessions && d.sessions[found.value.Key()] == found.value
                  && Close(found.value, Reason(c)).Success?
                  && Close(found.value, Reason(c)).value.session.Key() == found.value.Key()
                  && SessionPart(d, key, c, start) == Success(Some(Close(found.value, Reason(c)).value)))
  {
    hide Good;
    hide FindActive;
    hide Close;
    ActiveAlone(d, key, c);
  }

  lemma CreateAlone(d: Data, t: Txn)
    requires Good(d) && t.request.Create? && t.number != ""
    ensures match Submit(t.request.key, t.number, t.request.intent)
            case Failure(e) => e == ValueError && !Named(t.request.key, t.request.intent) && Atomically(d, t) == Failure(e)
            case Success(x) =>
              && Named(t.request.key, t.request.intent)
              && x.order.Key() == t.request.key && x.order.intent == t.request.intent
              && Atomically(d, t) == CommitTo(d, Staging(OrderWrite(x.order, None), map[], Recorded(x)))
              && match Atomically(d, t)
                 case Failure(e) => e == ConcurrencyConflict && t.request.key in d.orders
                 case Success(after) =>
                   && Good(after) && t.request.key !in d.orders
                   && t.request.key in after.orders && after.orders[t.request.key] == x.order
  {
    hide Good;
    hide Roomy;
    GoodAfter(d, t);
    if Submit(t.request.key, t.number, t.request.intent).Success? {
      var key, x := t.request.key, Submit(t.request.key, t.number, t.request.intent).value;
      MergedOne(d.orders, key, Staged(x.order, None));
      MergedNone(d.sessions);
      assert d.sessions + map[] == d.sessions;
      assert key in OrderWrite(x.order, None);
      if key !in d.orders { NewOrderFits(d, key, x.order); }
    }
  }

  lemma NewOrderFits(d: Data, key: Key, o: Order)
    requires Good(d) && key !in d.orders && Occupant(o).None?
    ensures Roomy(d.orders + map[key := o])
  {
    RoomKept(d.orders, key, o);
  }

  /** What the caller gets back is what the store holds. */
  lemma CommandStores(d: Data, t: Txn)
    requires t.request.OnOrder? && Atomically(d, t).Success?
    ensures var k := t.request.key;
            && k in d.orders && Decide(d.orders[k], t.request.command).Success?
            && k in Atomically(d, t).value.orders
            && Atomically(d, t).value.orders[k] == Decide(d.orders[k], t.request.command).value.order
  {
    hide Decide;
    hide SessionPart;
  }

  lemma LocationStores(d: Data, t: Txn)
    requires t.request.Locate? && Atomically(d, t).Success?
    ensures var k := t.request.session;
            && k in d.sessions && Observe(d.sessions[k], t.request.fix, t.now).Success?
            && k in Atomically(d, t).value.sessions
            && Atomically(d, t).value.sessions[k] == Observe(d.sessions[k], t.request.fix, t.now).value.session
  {
    hide Observe;
  }

  /** Staged values against the versions they replace commit as the bare writes do. */
  lemma StagedAsWritten(d: Data, w: Writes, s: Staging)
    requires Current(d, s) && s.events == w.events
    requires Merged(d.orders, s.orders) == d.orders + w.orders
    requires Merged(d.sessions, s.sessions) == d.sessions + w.sessions
    ensures CommitTo(d, s) == if Roomy(d.orders + w.orders) then Success(Apply(d, w)) else Failure(ConcurrencyConflict)
  {
    hide Roomy;
  }

  lemma CommandAlone(d: Data, t: Txn, x: Decision, part: Option<SessionDecision>)
    requires Good(d) && t.request.OnOrder? && !t.request.command.StartTravel? && t.request.key in d.orders
    requires Decide(d.orders[t.request.key], t.request.command) == Success(x)
    requires SessionPart(d, t.request.key, t.request.command, t.request.start) == Success(part)
    ensures part.Some? ==> part.value.session.Key() in d.sessions
    ensures CommitTo(d, AloneStaging(d, t.request.key, x, part)) == Atomically(d, t)
    ensures x.order.Key() == t.request.key
    ensures Atomically(d, t).Success? ==> Good(Atomically(d, t).value)
  {
    hide Decide;
    hide Good;
    hide SessionPart;
    hide Roomy;
    hide CommitTo;
    var key, c := t.request.key, t.request.command;
    GoodAfter(d, t);
    KeyedAlone(d, key, c);
    PartAlone(d, key, c, t.request.start, part);
    var s, w := AloneStaging(d, key, x, part), CommandWrites(key, x, part);
    MergedOne(d.orders, key, s.orders[key]);
    if part.Some? {
      MergedOne(d.sessions, part.value.session.Key(), s.sessions[part.value.session.Key()]);
    } else {
      MergedNone(d.sessions);
      assert d.sessions + map[] == d.sessions;
    }
    StagedAsWritten(d, w, s);
  }

  lemma PartAlone(d: Data, key: Key, c: Command, start: SessionStart, part: Option<SessionDecision>)
    requires Good(d) && !c.StartTravel? && SessionPart(d, key, c, start) == Success(part)
    ensures part.Some? ==> part.value.session.Key() in d.sessions
  {
    ActiveAlone(d, key, c);
  }

  lemma TravelAlone(d: Data, t: Txn, x: Decision, y: SessionDecision)
    requires Good(d) && t.request.OnOrder? && t.request.command.StartTravel? && t.request.key in d.orders
    requires Decide(d.orders[t.request.key], t.request.command) == Success(x)
    requires Begin(t.request.key, t.request.command.executor, t.request.start) == Success(y)
    ensures var staging := Staging(OrderWrite(x.order, Some(d.orders[t.request.key].version)), SessionWrite(y.session, None),
                                   Recorded(x) + Noted(y));
            CommitTo(d, staging) == Atomically(d, t)
    ensures Atomically(d, t).Success? ==> Good(Atomically(d, t).value)
  {
    hide Decide;
    hide Begin;
    hide Good;
    hide Roomy;
    hide Recorded;
    hide Noted;
    var key, k := t.request.key, y.session.Key();
    GoodAfter(d, t);
    KeyedAlone(d, key, t.request.command);
    var s := Staging(OrderWrite(x.order, Some(d.orders[key].version)), SessionWrite(y.session, None), Recorded(x) + Noted(y));
    assert k in s.sessions && s.sessions[k].expected == None;
    if k !in d.sessions {
      MergedOne(d.orders, key, s.orders[key]);
      MergedOne(d.sessions, k, s.sessions[k]);
      StagedAsWritten(d, CommandWrites(key, x, Some(y)), s);
    }
  }

  lemma LocateAlone(d: Data, t: Txn, y: SessionDecision)
    requires Good(d) && t.request.Locate? && t.request.session in d.sessions
    requires d.sessions[t.request.session].executor == t.request.executor
    requires Observe(d.sessions[t.request.session], t.request.fix, t.now) == Success(y)
    ensures y.session.Key() == t.request.session
    ensures CommitTo(d, Staging(map[], SessionWrite(y.session, Some(d.sessions[t.request.session].version)), Noted(y)))
            == Atomically(d, t)
    ensures Atomically(d, t).Success? ==> Good(Atomically(d, t).value)
  {
    hide Good;
    hide Observe;
    hide Roomy;
    hide CommitTo;
    var key := t.request.session;
    GoodAfter(d, t);
    LocatedKey(d, key, t.request.fix, t.now);
    var s := Staging(map[], SessionWrite(y.session, Some(d.sessions[key].version)), Noted(y));
    MergedOne(d.sessions, key, s.sessions[key]);
    MergedNone(d.orders);
    assert d.orders + map[] == d.orders;
    StagedAsWritten(d, Writes(map[], map[key := y.session], Noted(y)), s);
  }

  lemma LocatedKey(d: Data, key: Key, fix: Fix, now: int)
    requires Good(d) && key in d.sessions && Observe(d.sessions[key], fix, now).Success?
    ensures Observe(d.sessions[key], fix, now).value.session.Key() == key
  {
    ObserveKeepsKey(d.sessions[key], fix, now);
  }

  lemma GoodAfter(d: Data, t: Txn)
    requires Good(d)
    ensures Atomically(d, t).Success? ==> Good(Atomically(d, t).value)
  {
    if Atomically(d, t).Success? { TransactionsKeepGood(d, t); }
  }
}
