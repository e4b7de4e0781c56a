/** The in-memory store and its unit of work: staged writes, and the commit that
    checks aggregate versions and executor capacity before it applies them. */
module MemoryStore {
  import opened Prelude
  import opened Domain
  import opened WorkOrders
  import opened Tracking
  import OrderNumbers

  /** The committed data; the order-number counters live outside of it. */
  datatype Data = Data(orders: map<Key, Order>, sessions: map<Key, Session>, outbox: seq<Event>)

  /** A staged snapshot and the version it replaces (none for a new aggregate). */
  datatype Staged<+T> = Staged(value: T, expected: Option<nat>)

  datatype Staging = Staging(orders: map<Key, Staged<Order>>, sessions: map<Key, Staged<Session>>, events: seq<Event>)

  const NOTHING := Staging(map[], map[], [])

  function OrderVersion(orders: map<Key, Order>, k: Key): Option<nat> {
    if k in orders then Some(orders[k].version) else None
  }

  function SessionVersion(sessions: map<Key, Session>, k: Key): Option<nat> {
    if k in sessions then Some(sessions[k].version) else None
  }

  /** Every staged aggregate replaces exactly the version it was read at. */
  predicate Current(d: Data, s: Staging) {
    && (forall k :: k in s.orders ==> OrderVersion(d.orders, k) == s.orders[k].expected)
    && (forall k :: k in s.sessions ==> SessionVersion(d.sessions, k) == s.sessions[k].expected)
  }

  /** The organization and executor an order occupies. */
  function Occupant(o: Order): Option<(string, string)> {
    if o.assignee.Some? && Busy(o.status) then Some((o.org, o.assignee.value)) else None
  }

  /** No executor is occupied by two orders of one organization. */
  ghost predicate Roomy(orders: map<Key, Order>) {
    forall a, b :: a in orders && b in orders && a != b && Occupant(orders[a]).Some? ==>
      Occupant(orders[a]) != Occupant(orders[b])
  }

  function Merged<T>(stored: map<Key, T>, staged: map<Key, Staged<T>>): map<Key, T> {
    map k | k in stored.Keys + staged.Keys :: if k in staged then staged[k].value else stored[k]
  }

  /** The whole commit, as one atomic change of the data. */
  ghost function CommitTo(d: Data, s: Staging): Result<Data> {
    if !Current(d, s) || !Roomy(Merged(d.orders, s.orders)) then Failure(ConcurrencyConflict)
    else Success(Data(Merged(d.orders, s.orders), Merged(d.sessions, s.sessions), d.outbox + s.events))
  }

  predicate ActiveFor(sessions: map<Key, Session>, sk: Key, order: Key) {
    && sk in sessions && sk.0 == order.0
    && sessions[sk].orderId == order.1 && sessions[sk].status == Active
  }

  /** The active session of an order; more than one is an error. */
  ghost function FindActive(sessions: map<Key, Session>, order: Key): Result<Option<Session>> {
    if exists a, b :: ActiveFor(sessions, a, order) && ActiveFor(sessions, b, order) && a != b then Failure(RuntimeError)
    else if a :| ActiveFor(sessions, a, order) then Success(Some(sessions[a]))
    else Success(None)
  }

  predicate Reports(p: Point, source: LocationSource, eventId: string) {
    p.source == source && p.eventId == Some(eventId)
  }

  predicate SessionReports(s: Session, source: LocationSource, eventId: string) {
    exists i :: 0 <= i < |s.points| && Reports(s.points[i], source, eventId)
  }

  /** Some session of the organization already holds this source event. */
  predicate HasSourceEvent(sessions: map<Key, Session>, org: string, source: LocationSource, eventId: string) {
    exists k :: k in sessions && sessions[k].org == org && SessionReports(sessions[k], source, eventId)
  }

  class AsyncMemoryStore {
    var orders: map<Key, Order>
    var sessions: map<Key, Session>
    var outbox: seq<Event>
    var counters: map<string, nat>

    function State(): Data
      reads this
    {
      Data(orders, sessions, outbox)
    }

    constructor ()
      ensures State() == Data(map[], map[], []) && counters == map[]
    {
      orders, sessions, outbox, counters := map[], map[], [], map[];
    }
  }

  class UnitOfWork {
    const store: AsyncMemoryStore
    var stagedOrders: map<Key, Staged<Order>>
    var stagedSessions: map<Key, Staged<Session>>
    var stagedEvents: seq<Event>
    var committed: bool

    function State(): Staging
      reads this
    {
      Staging(stagedOrders, stagedSessions, stagedEvents)
    }

    constructor (store: AsyncMemoryStore)
      ensures this.store == store && State() == NOTHING && !committed
    {
      this.store := store;
      stagedOrders, stagedSessions, stagedEvents, committed := map[], map[], [], false;
    }

    method AllocatePublicNumber(org: string) returns (number: string)
      modifies store`counters
      ensures var sequence := (if org in old(store.counters) then old(store.counters)[org] else 0) + 1;
              && store.counters == old(store.counters)[org := sequence]
              && OrderNumbers.Format(sequence) == Success(number) && number != ""
    {
      var sequence := (if org in store.counters then store.counters[org] else 0) + 1;
      store.counters := store.counters[org := sequence];
      OrderNumbers.ParseInvertsFormat(sequence);
      return OrderNumbers.Format(sequence).value;
    }

    method GetOrder(k: Key) returns (r: Result<WorkOrder>)
      ensures match r
              case Failure(e) => e == NotFound && k !in store.orders
              case Success(order) => k in store.orders && fresh(order) && order.State() == store.orders[k] && order.events == []
    {
      if k !in store.orders { return Failure(NotFound); }
      var copy := new WorkOrder.Restore(store.orders[k]);
      return Success(copy);
    }

    method SaveOrder(order: WorkOrder, expected: Option<nat>)
      modifies this`stagedOrders
      ensures stagedOrders == old(stagedOrders)[order.State().Key() := Staged(order.State(), expected)]
    {
      stagedOrders := stagedOrders[(order.org, order.id) := Staged(order.State(), expected)];
    }

    method GetSession(k: Key) returns (r: Result<TrackingSession>)
      ensures match r
              case Failure(e) => e == NotFound && k !in store.sessions
              case Success(s) => k in store.sessions && fresh(s) && s.State() == store.sessions[k] && s.events == []
    {
      if k !in store.sessions { return Failure(NotFound); }
      var copy := new TrackingSession.Restore(store.sessions[k]);
      return Success(copy);
    }

    method SaveSession(session: TrackingSession, expected: Option<nat>)
      modifies this`stagedSessions
      ensures stagedSessions == old(stagedSessions)[session.State().Key() := Staged(session.State(), expected)]
    {
      stagedSessions := stagedSessions[(session.org, session.id) := Staged(session.State(), expected)];
    }

    method AddEvents(events: seq<Event>)
      modifies this`stagedEvents
      ensures stagedEvents == old(stagedEvents) + events
    {
      stagedEvents := stagedEvents + events;
    }

    /** Collects the matches and refuses to choose between two of them. */
    method FindActiveForOrder(order: Key) returns (r: Result<Option<Session>>)
      ensures r == FindActive(store.sessions, order)
    {
      var matches: set<Key>, todo := {}, store.sessions.Keys;
      while todo != {}
        invariant todo <= store.sessions.Keys
        invariant forall k :: k in matches <==> ActiveFor(store.sessions, k, order) && k !in todo
        decreases todo
      {
        var k :| k in todo;
        todo := todo - {k};
        if k.0 == order.0 && store.sessions[k].orderId == order.1 && store.sessions[k].status == Active {
          matches := matches + {k};
        }
      }
      if matches == {} { return Success(None); }
      var k :| k in matches;
      if matches != {k} {
        assert exists b :: b in matches && b != k;
        return Failure(RuntimeError);
      }
      assert forall a :: ActiveFor(store.sessions, a, order) ==> a == k;
      return Success(Some(store.sessions[k]));
    }

    method Commit() returns (r: Result<()>)
      modifies this, store
      ensures match CommitTo(old(store.State()), old(State()))
              case Failure(e) => r == Failure(e) && store.State() == old(store.State()) && State() == old(State())
              case Success(d) => r == Success(()) && store.State() == d && State() == NOTHING && committed
      ensures store.counters == old(store.counters)
    {
      r := CheckVersions();
      if r.Failure? { return; }
      r := CheckExecutorCapacity();
      if r.Failure? { return; }
      store.orders := Merged(store.orders, stagedOrders);
      store.sessions := Merged(store.sessions, stagedSessions);
      store.outbox := store.outbox + stagedEvents;
      committed := true;
      Clear();
    }

    method CheckVersions() returns (r: Result<()>)
      ensures r == if Current(store.State(), State()) then Success(()) else Failure(ConcurrencyConflict)
    {
      var todo := stagedOrders.Keys;
      while todo != {}
        invariant todo <= stagedOrders.Keys
        invariant forall k :: k in stagedOrders && k !in todo ==> OrderVersion(store.orders, k) == stagedOrders[k].expected
        decreases todo
      {
        var k :| k in todo;
        todo := todo - {k};
        match stagedOrders[k].expected {
          case None => if k in store.orders { return Failure(ConcurrencyConflict); }
          case Some(v) => if k !in store.orders || store.orders[k].version != v { return Failure(ConcurrencyConflict); }
        }
      }
      todo := stagedSessions.Keys;
      while todo != {}
        invariant todo <= stagedSessions.Keys
        invariant forall k :: k in stagedSessions && k !in todo ==> SessionVersion(store.sessions, k) == stagedSessions[k].expected
        decreases todo
      {
        var k :| k in todo;
        todo := todo - {k};
        match stagedSessions[k].expected {
          case None => if k in store.sessions { return Failure(ConcurrencyConflict); }
          case Some(v) => if k !in store.sessions || store.sessions[k].version != v { return Failure(ConcurrencyConflict); }
        }
      }
      return Success(());
    }

    /** One pass over the merged orders with a set of occupied executors: it fails
        exactly when two orders of one organization occupy the same executor. */
    method CheckExecutorCapacity() returns (r: Result<()>)
      ensures r == if Roomy(Merged(store.orders, stagedOrders)) then Success(()) else Failure(ConcurrencyConflict)
    {
      var merged := Merged(store.orders, stagedOrders);
      var todo, occupied: set<(string, string)> := merged.Keys, {};
      while todo != {}
        invariant todo <= merged.Keys
        invariant forall x :: x in occupied <==> exists k :: k in merged && k !in todo && Occupant(merged[k]) == Some(x)
        invariant forall a, b :: a in merged && a !in todo && b in merged && b !in todo && a != b && Occupant(merged[a]).Some? ==>
                    Occupant(merged[a]) != Occupant(merged[b])
        decreases todo
      {
        var k :| k in todo;
        todo := todo - {k};
        var order := merged[k];
        if order.assignee.Some? && Busy(order.status) {
          var slot := (order.org, order.assignee.value);
          if slot in occupied { return Failure(ConcurrencyConflict); }
          occupied := occupied + {slot};
        }
      }
      return Success(());
    }

    method Clear()
      modifies this`stagedOrders, this`stagedSessions, this`stagedEvents
      ensures State() == NOTHING
    {
      stagedOrders, stagedSessions, stagedEvents := map[], map[], [];
    }
  }
}
