/** The application commands as serial transactions, and the invariant of the
    committed data that every one of them keeps. */
module Service {
  import opened Prelude
  import opened Domain
  import opened WorkOrders
  import opened Tracking
  import opened EventLog
  import opened MemoryStore

  datatype Request =
    | Create(key: Key, intent: Intent, once: bool)
    | OnOrder(key: Key, command: Command, start: SessionStart)
    | Locate(session: Key, executor: string, fix: Fix)

  /** A request with the public number it drew and the clock it read. */
  datatype Txn = Txn(request: Request, number: string, now: int)

  datatype Writes = Writes(orders: map<Key, Order>, sessions: map<Key, Session>, events: seq<Event>)

  /** The commands that also close the order's active session. */
  predicate Ends(c: Command) {
    c.Complete? || c.Cancel?
  }

  function Reason(c: Command): Option<string> {
    if c.Cancel? then Some(c.reason) else None
  }

  /** What a command on an order does to a tracking session, given the committed data. */
  ghost function SessionPart(d: Data, order: Key, c: Command, start: SessionStart): Result<Option<SessionDecision>> {
    if c.StartTravel? then
      match Begin(order, c.executor, start)
      case Failure(e) => Failure(e)
      case Success(y) => if y.session.Key() in d.sessions then Failure(ConcurrencyConflict) else Success(Some(y))
    else if Ends(c) then
      match FindActive(d.sessions, order)
      case Failure(e) => Failure(e)
      case Success(None) => Success(None)
      case Success(Some(s)) =>
        (match Close(s, Reason(c)) case Failure(e) => Failure(e) case Success(y) => Success(Some(y)))
    else Success(None)
  }

  /** The writes of a transaction that has the store to itself. `Locate` does not
      look for its source event in other sessions; see `CheckedLocate`. */
  ghost function Intend(d: Data, t: Txn): Result<Writes> {
    match t.request
    case Create(key, intent, _) =>
      (match Submit(key, t.number, intent)
       case Failure(e) => Failure(e)
       case Success(x) =>
         if key in d.orders then Failure(ConcurrencyConflict)
         else Success(Writes(map[key := x.order], map[], Recorded(x))))
    case OnOrder(key, c, start) =>
      if key !in d.orders then Failure(NotFound)
      else
        (match Decide(d.orders[key], c)
         case Failure(e) => Failure(e)
         case Success(x) =>
           match SessionPart(d, key, c, start)
           case Failure(e) => Failure(e)
           case Success(None) => Success(Writes(map[key := x.order], map[], Recorded(x)))
           case Success(Some(y)) =>
             Success(Writes(map[key := x.order], map[y.session.Key() := y.session], Recorded(x) + Noted(y))))
    case Locate(key, executor, fix) =>
      if key !in d.sessions then Failure(NotFound)
      else if d.sessions[key].executor != executor then Failure(InvalidTransition)
      else
        match Observe(d.sessions[key], fix, t.now)
        case Failure(e) => Failure(e)
        case Success(y) => Success(Writes(map[], map[key := y.session], Noted(y)))
  }

  function Apply(d: Data, w: Writes): Data {
    Data(d.orders + w.orders, d.sessions + w.sessions, d.outbox + w.events)
  }

  ghost function Atomically(d: Data, t: Txn): Result<Data> {
    match Intend(d, t)
    case Failure(e) => Failure(e)
    case Success(w) => if Roomy(d.orders + w.orders) then Success(Apply(d, w)) else Failure(ConcurrencyConflict)
  }

  // The invariant ------------------------------------------------------------

  function OrderKey(s: Session): Key {
    (s.org, s.orderId)
  }

  ghost predicate Keyed(d: Data) {
    && (forall k :: k in d.orders ==> d.orders[k].Key() == k)
    && (forall k :: k in d.sessions ==> d.sessions[k].Key() == k)
  }

  ghost predicate AllSound(d: Data) {
    && (forall k :: k in d.orders ==> Sound(d.orders[k]))
    && (forall k :: k in d.sessions ==> SoundSession(d.sessions[k]))
  }

  /** The order's events are numbered 1..version and replay to the order; an absent order has none. */
  ghost predicate OrderLogged(d: Data, k: Key) {
    var log := LogOf(d.outbox, OrderAggregate, k);
    if k in d.orders then
      |log| == d.orders[k].version && Numbered(log) && Replay(log) == Live(ViewOf(d.orders[k]))
    else log == []
  }

  ghost predicate SessionLogged(d: Data, k: Key) {
    var log := LogOf(d.outbox, SessionAggregate, k);
    if k in d.sessions then
      && |log| == d.sessions[k].version && Numbered(log)
      && TrailOf(log) == TrailFor(d.sessions[k])
    else log == []
  }

  ghost predicate Logged(d: Data) {
    && (forall k :: OrderLogged(d, k))
    && (forall k :: SessionLogged(d, k))
  }

  /** A session belongs to an order that set out; while it is active the order is
      on its way or in progress with the session's executor. */
  ghost predicate Accompanied(d: Data, s: Session) {
    && OrderKey(s) in d.orders
    && (Underway(d.orders[OrderKey(s)].status) || Terminal(d.orders[OrderKey(s)].status))
    && (s.status == Active ==>
          && Underway(d.orders[OrderKey(s)].status)
          && d.orders[OrderKey(s)].assignee == Some(s.executor))
  }

  ghost predicate AllAccompanied(d: Data) {
    forall k :: k in d.sessions ==> Accompanied(d, d.sessions[k])
  }

  ghost predicate OnePerOrder(sessions: map<Key, Session>) {
    forall a, b :: a in sessions && b in sessions && OrderKey(sessions[a]) == OrderKey(sessions[b]) ==> a == b
  }

  ghost predicate Tracked(d: Data, k: Key) {
    k in d.orders && d.orders[k].status == EnRoute ==> exists a :: ActiveFor(d.sessions, a, k)
  }

  ghost predicate Coupled(d: Data) {
    AllAccompanied(d) && OnePerOrder(d.sessions) && forall k :: Tracked(d, k)
  }

  ghost predicate Good(d: Data) {
    Keyed(d) && AllSound(d) && Logged(d) && Coupled(d) && Roomy(d.orders)
  }

  const EMPTY := Data(map[], map[], [])

  lemma EmptyIsGood()
    ensures Good(EMPTY)
  {
  }

  // What one transaction does, seen from the store --------------------------------

  /** With at most one session per order, the search for an active one never fails. */
  lemma FindActiveSucceeds(d: Data, k: Key)
    requires Keyed(d) && Coupled(d)
    ensures FindActive(d.sessions, k).Success?
    ensures var found := FindActive(d.sessions, k).value;
            && (found.Some? ==> ActiveFor(d.sessions, found.value.Key(), k) && d.sessions[found.value.Key()] == found.value)
            && (found.None? ==> forall a :: !ActiveFor(d.sessions, a, k))
  {
    forall a, b | ActiveFor(d.sessions, a, k) && ActiveFor(d.sessions, b, k)
      ensures a == b
    {
      assert OrderKey(d.sessions[a]) == k == OrderKey(d.sessions[b]);
    }
  }

  /** The order a command leaves behind, as far as the rest of the store depends on it. */
  ghost predicate Moved(o: Order, c: Command, x: Decision) {
    var o' := x.order;
    && Sound(o') && o'.Key() == o.Key() && o'.number == o.number && o'.intent == o.intent
    && o'.version == o.version + |Recorded(x)|
    && (x.event.None? ==> o' == o)
    && (x.event.Some? ==> ReplayEvent(Live(ViewOf(o)), x.event.value) == Live(ViewOf(o')))
    && !Terminal(o.status) && (Ends(c) <==> Terminal(o'.status))
    && (c.StartTravel? ==> o.status == Accepted && o'.status == EnRoute && o'.assignee == Some(c.executor) && x.event.Some?)
    && (o'.status == EnRoute && !c.StartTravel? ==> o.status == EnRoute)
    && (Underway(o.status) && !Ends(c) ==> Underway(o'.status) && o'.assignee == o.assignee)
    && (!c.Assign? && !c.ClaimFirst? ==> Occupant(o').Some? ==> Occupant(o') == Occupant(o))
    && (Ends(c) ==> x.event.Some?)
  }

  lemma DecisionsMove(o: Order, c: Command)
    requires Sound(o) && Decide(o, c).Success?
    ensures Moved(o, c, Decide(o, c).value)
  {
    hide ReplayEvent;
    hide ViewOf;
    hide Resolved;
    DecideKeepsSound(o, c);
    if Decide(o, c).value.event.Some? { DecisionReplays(o, c); }
  }

  /** The session a command on `key` opens or closes, if any. */
  ghost predicate Escorted(d: Data, key: Key, c: Command, part: Option<SessionDecision>) {
    if c.StartTravel? then
      && part.Some? && part.value.event == Some(TrackingStarted)
      && var y := part.value.session;
      && SoundSession(y) && OrderKey(y) == key && y.executor == c.executor && y.status == Active
      && y.version == 1 && y.points == [] && y.Key() !in d.sessions
    else if Ends(c) then
      && (part.None? ==> forall a :: !ActiveFor(d.sessions, a, key))
      && (part.Some? ==>
            && part.value.event.Some?
            && var y := part.value.session;
            && ActiveFor(d.sessions, y.Key(), key)
            && var s := d.sessions[y.Key()];
            && SoundSession(y) && OrderKey(y) == key && y.status != Active && y.version == s.version + 1
            && TrailEvent(TrailFor(s), part.value.event.value) == TrailFor(y))
    else part.None?
  }

  lemma DepartureEscorts(d: Data, key: Key, c: Command, start: SessionStart)
    requires c.StartTravel? && SessionPart(d, key, c, start).Success?
    ensures Escorted(d, key, c, SessionPart(d, key, c, start).value)
  {
    hide FindActive;
    hide TrailEvent;
  }

  lemma ClosingEscorts(d: Data, key: Key, c: Command, start: SessionStart)
    requires Keyed(d) && AllSound(d) && Coupled(d) && Ends(c) && SessionPart(d, key, c, start).Success?
    ensures Escorted(d, key, c, SessionPart(d, key, c, start).value)
  {
    hide FindActive;
    hide Begin;
    hide Coupled;
    hide TokenOk;
    FindActiveSucceeds(d, key);
  }

  lemma SessionPartEscorts(d: Data, key: Key, c: Command, start: SessionStart)
    requires Keyed(d) && AllSound(d) && Coupled(d) && SessionPart(d, key, c, start).Success?
    ensures Escorted(d, key, c, SessionPart(d, key, c, start).value)
  {
    hide FindActive;
    hide Begin;
    hide Close;
    if c.StartTravel? { DepartureEscorts(d, key, c, start); }
    if Ends(c) { ClosingEscorts(d, key, c, start); }
  }

  function CommandWrites(key: Key, x: Decision, part: Option<SessionDecision>): Writes {
    match part
    case None => Writes(map[key := x.order], map[], Recorded(x))
    case Some(y) => Writes(map[key := x.order], map[y.session.Key() := y.session], Recorded(x) + Noted(y))
  }

  // Event logs -----------------------------------------------------------------

  /** The events written for an order: none when it is unchanged, else the one that explains it. */
  ghost predicate OrderAdvances(d: Data, w: Writes, k: Key) {
    var log := LogOf(w.events, OrderAggregate, k);
    if k !in w.orders then log == []
    else if k in d.orders && w.orders[k] == d.orders[k] then log == []
    else
      && |log| == 1 && log[0] == OrderEvent(w.orders[k], log[0].payload)
      && w.orders[k].version == (if k in d.orders then d.orders[k].version else 0) + 1
      && ReplayEvent(if k in d.orders then Live(ViewOf(d.orders[k])) else Nothing, log[0].payload) == Live(ViewOf(w.orders[k]))
  }

  ghost predicate SessionAdvances(d: Data, w: Writes, k: Key) {
    var log := LogOf(w.events, SessionAggregate, k);
    if k !in w.sessions then log == []
    else if k in d.sessions && w.sessions[k] == d.sessions[k] then log == []
    else
      && |log| == 1 && log[0] == SessionEvent(w.sessions[k], log[0].payload)
      && w.sessions[k].version == (if k in d.sessions then d.sessions[k].version else 0) + 1
      && TrailEvent(if k in d.sessions then TrailFor(d.sessions[k]) else NoTrail, log[0].payload)
         == TrailFor(w.sessions[k])
  }

  ghost predicate Explained(d: Data, w: Writes) {
    && (forall k :: OrderAdvances(d, w, k))
    && (forall k :: SessionAdvances(d, w, k))
  }

  lemma LogOfOne(e: Event, a: Aggregate, k: Key)
    ensures LogOf([e], a, k) == if e.aggregate == a && e.key == k then [e] else []
  {
    assert [e][..0] == [];
  }

  lemma LogOfRecorded(x: Decision, a: Aggregate, k: Key)
    ensures LogOf(Recorded(x), a, k) ==
            if x.event.Some? && a == OrderAggregate && x.order.Key() == k then Recorded(x) else []
  {
    if x.event.Some? { LogOfOne(OrderEvent(x.order, x.event.value), a, k); }
  }

  lemma LogOfNoted(y: SessionDecision, a: Aggregate, k: Key)
    ensures LogOf(Noted(y), a, k) ==
            if y.event.Some? && a == SessionAggregate && y.session.Key() == k then Noted(y) else []
  {
    if y.event.Some? { LogOfOne(SessionEvent(y.session, y.event.value), a, k); }
  }

  lemma CreateExplained(d: Data, key: Key, number: string, intent: Intent)
    requires key !in d.orders && Submit(key, number, intent).Success?
    ensures var x := Submit(key, number, intent).value; Explained(d, Writes(map[key := x.order], map[], Recorded(x)))
  {
    hide LogOf;
    hide TrailEvent;
    var x := Submit(key, number, intent).value;
    var w := Writes(map[key := x.order], map[], Recorded(x));
    forall k ensures OrderAdvances(d, w, k) { LogOfRecorded(x, OrderAggregate, k); }
    forall k ensures SessionAdvances(d, w, k) { LogOfRecorded(x, SessionAggregate, k); }
  }

  lemma LocateExplained(d: Data, key: Key, y: SessionDecision)
    requires Keyed(d) && key in d.sessions && y.session.Key() == key
    requires y.event.None? ==> y.session == d.sessions[key]
    requires y.event.Some? ==>
               && y.session.version == d.sessions[key].version + 1
               && TrailEvent(TrailFor(d.sessions[key]), y.event.value) == TrailFor(y.session)
    ensures Explained(d, Writes(map[], map[key := y.session], Noted(y)))
  {
    forall a, k { LogOfNoted(y, a, k); }
  }

  lemma CommandLogs(key: Key, x: Decision, part: Option<SessionDecision>, k: Key)
    requires x.order.Key() == key
    ensures LogOf(CommandWrites(key, x, part).events, OrderAggregate, k) == if k == key then Recorded(x) else []
    ensures LogOf(CommandWrites(key, x, part).events, SessionAggregate, k)
            == if part.Some? && k == part.value.session.Key() then Noted(part.value) else []
  {
    hide LogOf;
    LogOfRecorded(x, OrderAggregate, k);
    LogOfRecorded(x, SessionAggregate, k);
    if part.Some? {
      LogOfNoted(part.value, OrderAggregate, k);
      LogOfNoted(part.value, SessionAggregate, k);
      LogOfAppend(Recorded(x), Noted(part.value), OrderAggregate, k);
      LogOfAppend(Recorded(x), Noted(part.value), SessionAggregate, k);
    }
  }

  lemma CommandExplained(d: Data, key: Key, c: Command, x: Decision, part: Option<SessionDecision>)
    requires Keyed(d) && key in d.orders && Moved(d.orders[key], c, x) && Escorted(d, key, c, part)
    ensures Explained(d, CommandWrites(key, x, part))
  {
    hide ReplayEvent;
    hide ViewOf;
    hide Sound;
    hide SoundSession;
    hide LogOf;
    hide Occupant;
    var w := CommandWrites(key, x, part);
    forall k ensures OrderAdvances(d, w, k) {
      hide Escorted;
      CommandLogs(key, x, part, k);
    }
    forall k ensures SessionAdvances(d, w, k) {
      CommandLogs(key, x, part, k);
    }
  }

  lemma OrderLogGrows(d: Data, w: Writes, k: Key)
    requires OrderLogged(d, k) && OrderAdvances(d, w, k)
    ensures OrderLogged(Apply(d, w), k)
  {
    hide ReplayEvent;
    hide ViewOf;
    hide LogOf;
    LogOfAppend(d.outbox, w.events, OrderAggregate, k);
    var log, more := LogOf(d.outbox, OrderAggregate, k), LogOf(w.events, OrderAggregate, k);
    if more == [] {
      assert log + more == log;
    } else {
      assert more == [more[0]];
      ReplaySnoc(log, more[0]);
    }
  }

  lemma SessionLogGrows(d: Data, w: Writes, k: Key)
    requires SessionLogged(d, k) && SessionAdvances(d, w, k)
    ensures SessionLogged(Apply(d, w), k)
  {
    hide TrailEvent;
    hide LogOf;
    LogOfAppend(d.outbox, w.events, SessionAggregate, k);
    var log, more := LogOf(d.outbox, SessionAggregate, k), LogOf(w.events, SessionAggregate, k);
    if more == [] {
      assert log + more == log;
    } else {
      assert more == [more[0]];
      TrailSnoc(log, more[0]);
    }
  }

  lemma LogsGrow(d: Data, w: Writes)
    requires Logged(d) && Explained(d, w)
    ensures Logged(Apply(d, w))
  {
    forall k ensures OrderLogged(Apply(d, w), k) { OrderLogGrows(d, w, k); }
    forall k ensures SessionLogged(Apply(d, w), k) { SessionLogGrows(d, w, k); }
  }

  // Coupling -------------------------------------------------------------------

  /** An order that is on its way keeps its active session when that session stays active. */
  lemma StaysTracked(d: Data, d': Data, k: Key)
    requires Tracked(d, k)
    requires k in d'.orders && d'.orders[k].status == EnRoute ==> k in d.orders && d.orders[k].status == EnRoute
    requires k in d'.orders && d'.orders[k].status == EnRoute ==>
               forall a :: ActiveFor(d.sessions, a, k) ==> ActiveFor(d'.sessions, a, k)
    ensures Tracked(d', k)
  {
    if k in d'.orders && d'.orders[k].status == EnRoute {
      var a :| ActiveFor(d.sessions, a, k);
      assert ActiveFor(d'.sessions, a, k);
    }
  }

  lemma CreateCoupled(d: Data, w: Writes, key: Key, o: Order)
    requires Keyed(d) && Coupled(d) && key !in d.orders && o.status == Submitted
    requires w.orders == map[key := o] && w.sessions == map[]
    ensures Coupled(Apply(d, w))
  {
    var d' := Apply(d, w);
    assert d'.sessions == d.sessions;
    forall k ensures Tracked(d', k) { StaysTracked(d, d', k); }
    forall k | k in d'.sessions ensures Accompanied(d', d'.sessions[k]) { assert Accompanied(d, d.sessions[k]); }
  }

  lemma LocateCoupled(d: Data, w: Writes, key: Key, s: Session)
    requires Keyed(d) && Coupled(d) && key in d.sessions
    requires w.orders == map[] && w.sessions == map[key := s]
    requires OrderKey(s) == OrderKey(d.sessions[key]) && s.executor == d.sessions[key].executor && s.status == d.sessions[key].status
    ensures Coupled(Apply(d, w))
  {
    var d' := Apply(d, w);
    assert d'.orders == d.orders;
    forall k ensures Tracked(d', k) { StaysTracked(d, d', k); }
    forall k | k in d'.sessions ensures Accompanied(d', d'.sessions[k]) { assert Accompanied(d, d.sessions[k]); }
    UniqueAfterUpdate(d.sessions, key, s);
  }

  lemma UniqueAfterUpdate(sessions: map<Key, Session>, key: Key, s: Session)
    requires OnePerOrder(sessions)
    requires forall a :: a in sessions && a != key ==> OrderKey(sessions[a]) != OrderKey(s)
    ensures OnePerOrder(sessions + map[key := s])
  {
  }

  lemma CommandTracks(d: Data, key: Key, c: Command, x: Decision, part: Option<SessionDecision>, k: Key)
    requires Keyed(d) && Tracked(d, k) && key in d.orders
    requires Moved(d.orders[key], c, x) && Escorted(d, key, c, part)
    ensures Tracked(Apply(d, CommandWrites(key, x, part)), k)
  {
    hide ReplayEvent;
    hide ViewOf;
    hide Sound;
    hide SoundSession;
    var d' := Apply(d, CommandWrites(key, x, part));
    if c.StartTravel? && k == key {
      assert ActiveFor(d'.sessions, part.value.session.Key(), key);
    } else {
      StaysTracked(d, d', k);
    }
  }

  /** The session a command opens or closes goes with the order as the command leaves it. */
  lemma PartAccompanies(d: Data, key: Key, c: Command, x: Decision, y: SessionDecision)
    requires key in d.orders && Moved(d.orders[key], c, x) && Escorted(d, key, c, Some(y))
    ensures Accompanied(Apply(d, CommandWrites(key, x, Some(y))), y.session)
  {
    hide ReplayEvent;
    hide TrailEvent;
    hide ViewOf;
    hide Sound;
    hide SoundSession;
    hide Recorded;
    hide Noted;
    hide Occupant;
    hide ActiveFor;
  }

  lemma OthersAccompany(d: Data, key: Key, c: Command, x: Decision, part: Option<SessionDecision>, k: Key)
    requires Keyed(d) && key in d.orders && k in d.sessions && Accompanied(d, d.sessions[k])
    requires Moved(d.orders[key], c, x) && Escorted(d, key, c, part) && OnePerOrder(d.sessions)
    requires part.Some? ==> k != part.value.session.Key()
    ensures Accompanied(Apply(d, CommandWrites(key, x, part)), d.sessions[k])
  {
    hide ReplayEvent;
    hide TrailEvent;
    hide ViewOf;
    hide Sound;
    hide SoundSession;
    hide Recorded;
    hide Noted;
    hide Occupant;
    if d.sessions[k].status == Active && OrderKey(d.sessions[k]) == key {
      assert ActiveFor(d.sessions, k, key);
    }
  }

  lemma CommandAccompanies(d: Data, key: Key, c: Command, x: Decision, part: Option<SessionDecision>, k: Key)
    requires Keyed(d) && AllAccompanied(d) && key in d.orders
    requires Moved(d.orders[key], c, x) && Escorted(d, key, c, part) && OnePerOrder(d.sessions)
    ensures var d' := Apply(d, CommandWrites(key, x, part)); k in d'.sessions ==> Accompanied(d', d'.sessions[k])
  {
    hide Moved;
    hide Escorted;
    hide Accompanied;
    if part.Some? && k == part.value.session.Key() {
      PartAccompanies(d, key, c, x, part.value);
    } else if k in d.sessions {
      OthersAccompany(d, key, c, x, part, k);
    }
  }

  lemma CommandKeepsUnique(d: Data, key: Key, c: Command, x: Decision, part: Option<SessionDecision>)
    requires Keyed(d) && AllAccompanied(d) && OnePerOrder(d.sessions) && key in d.orders
    requires Moved(d.orders[key], c, x) && Escorted(d, key, c, part)
    ensures OnePerOrder(Apply(d, CommandWrites(key, x, part)).sessions)
  {
    hide ReplayEvent;
    hide ViewOf;
    hide Sound;
    hide SoundSession;
    if part.Some? {
      forall a | a in d.sessions && a != part.value.session.Key() ensures OrderKey(d.sessions[a]) != key {
        assert Accompanied(d, d.sessions[a]);
      }
      UniqueAfterUpdate(d.sessions, part.value.session.Key(), part.value.session);
    } else {
      assert Apply(d, CommandWrites(key, x, part)).sessions == d.sessions;
    }
  }

  lemma CommandCoupled(d: Data, key: Key, c: Command, x: Decision, part: Option<SessionDecision>)
    requires Keyed(d) && Coupled(d) && key in d.orders && Moved(d.orders[key], c, x) && Escorted(d, key, c, part)
    ensures Coupled(Apply(d, CommandWrites(key, x, part)))
  {
    hide Moved;
    hide Escorted;
    hide Tracked;
    hide Accompanied;
    hide OnePerOrder;
    CommandKeepsUnique(d, key, c, x, part);
    var d' := Apply(d, CommandWrites(key, x, part));
    forall k ensures Tracked(d', k) {
      CommandTracks(d, key, c, x, part, k);
    }
    forall k ensures k in d'.sessions ==> Accompanied(d', d'.sessions[k]) {
      CommandAccompanies(d, key, c, x, part, k);
    }
  }

  // Preservation ---------------------------------------------------------------

  /** The part of the invariant that holds whether or not the capacity check passes. */
  ghost predicate Consistent(d: Data) {
    Keyed(d) && AllSound(d) && Logged(d) && Coupled(d)
  }

  lemma StaysKeyedAndSound(d: Data, w: Writes)
    requires Keyed(d) && AllSound(d)
    requires forall k :: k in w.orders ==> w.orders[k].Key() == k && Sound(w.orders[k])
    requires forall k :: k in w.sessions ==> w.sessions[k].Key() == k && SoundSession(w.sessions[k])
    ensures Keyed(Apply(d, w)) && AllSound(Apply(d, w))
  {
    hide Sound;
    hide SoundSession;
  }

  lemma CreateKeeps(d: Data, t: Txn)
    requires Good(d) && t.request.Create? && Intend(d, t).Success?
    ensures Consistent(Apply(d, Intend(d, t).value))
  {
    hide Logged;
    hide Coupled;
    hide Sound;
    hide SoundSession;
    hide Roomy;
    hide Explained;
    var key := t.request.key;
    CreateExplained(d, key, t.number, t.request.intent);
    LogsGrow(d, Intend(d, t).value);
    CreateCoupled(d, Intend(d, t).value, key, Submit(key, t.number, t.request.intent).value.order);
    SubmitIsSound(key, t.number, t.request.intent);
    StaysKeyedAndSound(d, Intend(d, t).value);
  }

  lemma LocateKeeps(d: Data, t: Txn)
    requires Good(d) && t.request.Locate? && Intend(d, t).Success?
    ensures Consistent(Apply(d, Intend(d, t).value))
  {
    hide Good;
    hide Observe;
    hide Consistent;
    var key := t.request.session;
    SoundSessionAt(d, key);
    ObserveSteps(d.sessions[key], t.request.fix, t.now);
    SightingTrails(d.sessions[key], t.request.fix, t.now);
    SightingKeeps(d, key, Observe(d.sessions[key], t.request.fix, t.now).value);
  }

  /** The event of a point tells the point. */
  lemma SightingTrails(s: Session, fix: Fix, now: int)
    requires SoundSession(s) && Observe(s, fix, now).Success?
    ensures var y := Observe(s, fix, now).value;
            y.event.Some? ==> TrailEvent(TrailFor(s), y.event.value) == TrailFor(y.session)
  {
    hide PointOk;
    hide Stamped;
    hide HasEventId;
  }

  lemma SightingKeeps(d: Data, key: Key, y: SessionDecision)
    requires Good(d) && key in d.sessions && Steps(d.sessions[key], y)
    requires y.session.status == d.sessions[key].status
    requires y.event.Some? ==>
               TrailEvent(TrailFor(d.sessions[key]), y.event.value) == TrailFor(y.session)
    ensures Consistent(Apply(d, Writes(map[], map[key := y.session], Noted(y))))
  {
    hide Sound;
    hide SoundSession;
    hide TrailEvent;
    hide Logged;
    hide Accompanied;
    var w := Writes(map[], map[key := y.session], Noted(y));
    LocateExplained(d, key, y);
    LogsGrow(d, w);
    LocateCoupled(d, w, key, y.session);
    StaysKeyedAndSound(d, w);
  }

  lemma CommandKeeps(d: Data, key: Key, c: Command, x: Decision, part: Option<SessionDecision>)
    requires Good(d) && key in d.orders && Moved(d.orders[key], c, x) && Escorted(d, key, c, part)
    ensures Consistent(Apply(d, CommandWrites(key, x, part)))
  {
    hide Sound;
    hide SoundSession;
    hide ReplayEvent;
    hide ViewOf;
    hide TrailEvent;
    hide Logged;
    hide Accompanied;
    CommandExplained(d, key, c, x, part);
    LogsGrow(d, CommandWrites(key, x, part));
    CommandCoupled(d, key, c, x, part);
    StaysKeyedAndSound(d, CommandWrites(key, x, part));
  }

  lemma CommandIntends(d: Data, t: Txn) returns (x: Decision, part: Option<SessionDecision>)
    requires Good(d) && t.request.OnOrder? && Intend(d, t).Success?
    ensures t.request.key in d.orders && Decide(d.orders[t.request.key], t.request.command) == Success(x)
    ensures Moved(d.orders[t.request.key], t.request.command, x)
    ensures SessionPart(d, t.request.key, t.request.command, t.request.start) == Success(part)
    ensures Escorted(d, t.request.key, t.request.command, part)
    ensures Intend(d, t).value == CommandWrites(t.request.key, x, part)
  {
    x := Decide(d.orders[t.request.key], t.request.command).value;
    part := SessionPart(d, t.request.key, t.request.command, t.request.start).value;
    DecisionsMove(d.orders[t.request.key], t.request.command);
    SessionPartEscorts(d, t.request.key, t.request.command, t.request.start);
  }

  /** Every transaction keeps the invariant. */
  lemma TransactionsKeepGood(d: Data, t: Txn)
    requires Good(d) && Atomically(d, t).Success?
    ensures Good(Atomically(d, t).value)
  {
    match t.request {
      case Create(_, _, _) => CreateKeeps(d, t);
      case Locate(_, _, _) => LocateKeeps(d, t);
      case OnOrder(key, c, _) =>
        var x, part := CommandIntends(d, t);
        CommandKeeps(d, key, c, x, part);
    }
  }

  lemma RoomKept(orders: map<Key, Order>, key: Key, o: Order)
    requires Roomy(orders)
    requires Occupant(o).Some? ==> key in orders && Occupant(orders[key]) == Occupant(o)
    ensures Roomy(orders + map[key := o])
  {
  }

  lemma NoOrderNoChange(orders: map<Key, Order>)
    ensures orders + map[] == orders
  {
  }

  lemma GoodIsRoomy(d: Data)
    requires Good(d)
    ensures Roomy(d.orders)
  {
    hide Roomy;
  }

  /** Commands other than assignments leave the order where it was as far as capacity is concerned. */
  lemma KeepsItsPlace(d: Data, key: Key, c: Command)
    requires Good(d) && key in d.orders && Decide(d.orders[key], c).Success? && !c.Assign? && !c.ClaimFirst?
    ensures var o := Decide(d.orders[key], c).value.order; Occupant(o).Some? ==> Occupant(d.orders[key]) == Occupant(o)
  {
    hide Decide;
    DecisionsMove(d.orders[key], c);
  }

  lemma IntendedOrders(d: Data, t: Txn)
    requires t.request.OnOrder? && Intend(d, t).Success?
    ensures var key, c := t.request.key, t.request.command;
            && key in d.orders && Decide(d.orders[key], c).Success?
            && Intend(d, t).value.orders == map[key := Decide(d.orders[key], c).value.order]
  {
    hide Decide;
    hide SessionPart;
  }

  /** Given data that respects capacity, only `Assign` and `ClaimFirst` can fail the capacity check. */
  lemma OnlyAssignmentsExceedCapacity(d: Data, t: Txn)
    requires Good(d) && Intend(d, t).Success?
    requires !Roomy(d.orders + Intend(d, t).value.orders)
    ensures t.request.OnOrder? && (t.request.command.Assign? || t.request.command.ClaimFirst?)
  {
    hide Good;
    hide Roomy;
    hide Decide;
    hide SessionPart;
    GoodIsRoomy(d);
    match t.request {
      case Create(key, intent, _) => RoomKept(d.orders, key, Submit(key, t.number, intent).value.order);
      case Locate(_, _, _) => NoOrderNoChange(d.orders);
      case OnOrder(key, c, _) =>
        IntendedOrders(d, t);
        if !c.Assign? && !c.ClaimFirst? {
          KeepsItsPlace(d, key, c);
          RoomKept(d.orders, key, Decide(d.orders[key], c).value.order);
        }
    }
  }

  // Exactly when a command succeeds, and what it announces -------------------------------------

  /** Some order of the organization occupies the executor. */
  ghost predicate Occupied(d: Data, org: string, executor: string) {
    exists j :: j in d.orders && j.0 == org && Busy(d.orders[j].status) && d.orders[j].assignee == Some(executor)
  }

  /** A session may begin: it is named, its tokens are strong and differ, and its id is free. */
  predicate MayBegin(d: Data, order: Key, executor: string, start: SessionStart) {
    && order.0 != "" && order.1 != "" && executor != "" && start.id != ""
    && |start.publicToken| >= 43 && !Blank(start.publicToken) && |start.locationToken| >= 43 && !Blank(start.locationToken)
    && start.publicToken != start.locationToken
    && (order.0, start.id) !in d.sessions
  }

  /** Whom the command takes for the order. */
  function Taken(c: Command): Option<string> {
    match c case ClaimFirst(who) => Some(who) case Assign(who, _) => Some(who) case _ => None
  }

  lemma SoundAt(d: Data, k: Key)
    requires Good(d) && k in d.orders
    ensures Sound(d.orders[k]) && d.orders[k].Key() == k
  {
  }

  lemma TakersOccupy(o: Order, c: Command)
    requires Sound(o) && Decide(o, c).Success? && Taken(c).Some?
    ensures Occupant(Decide(o, c).value.order) == Some((o.org, Taken(c).value)) && Occupant(o).None?
  {
    hide Resolved;
  }

  lemma RoomForOne(orders: map<Key, Order>, k: Key, o: Order)
    requires Roomy(orders) && k in orders && Occupant(orders[k]).None? && Occupant(o).Some?
    ensures Roomy(orders + map[k := o]) <==> forall j :: j in orders ==> Occupant(orders[j]) != Occupant(o)
  {
    hide Occupant;
    var after := orders + map[k := o];
    if Roomy(after) {
      forall j | j in orders ensures Occupant(orders[j]) != Occupant(o) {
        if j != k { assert after[j] == orders[j] && after[k] == o; }
      }
    }
  }

  lemma RoomForTaker(d: Data, k: Key, o: Order, who: string)
    requires Good(d) && k in d.orders && Occupant(d.orders[k]).None? && Occupant(o) == Some((k.0, who))
    ensures Roomy(d.orders + map[k := o]) <==> !Occupied(d, k.0, who)
  {
    hide Good;
    hide Roomy;
    GoodIsRoomy(d);
    RoomForOne(d.orders, k, o);
    forall j | j in d.orders
      ensures Occupant(d.orders[j]) == Occupant(o) <==> j.0 == k.0 && Busy(d.orders[j].status) && d.orders[j].assignee == Some(who)
    {
      SoundAt(d, j);
    }
  }

  lemma PartSucceedsExactly(d: Data, k: Key, c: Command, start: SessionStart)
    requires Good(d)
    ensures SessionPart(d, k, c, start).Success? <==> (c.StartTravel? ==> MayBegin(d, k, c.executor, start))
  {
    hide FindActive;
    FindActiveSucceeds(d, k);
  }

  /** A command that has the store to itself succeeds exactly when its order exists and has done it
      already, or when the order's log admits it, it is well put, the executor it takes is free,
      and the session it opens may begin. */
  lemma CommandsSucceedExactly(d: Data, t: Txn)
    requires Good(d) && t.request.OnOrder?
    ensures var OnOrder(k, c, start) := t.request;
            Atomically(d, t).Success? <==>
            && k in d.orders
            && (Redundant(d.orders[k], c)
                || (&& Legal(d.orders[k], c) && WellPut(c, d.orders[k].intent.evidence)
                    && (Taken(c).Some? ==> !Occupied(d, k.0, Taken(c).value))
                    && (c.StartTravel? ==> MayBegin(d, k, c.executor, start))))
  {
    hide Good;
    hide Roomy;
    hide Decide;
    hide SessionPart;
    hide Legal;
    hide Redundant;
    hide WellPut;
    hide Occupied;
    hide MayBegin;
    var OnOrder(k, c, start) := t.request;
    if k in d.orders {
      var o := d.orders[k];
      SoundAt(d, k);
      DecidesExactly(o, c);
      PartSucceedsExactly(d, k, c, start);
      RedundantTakesNobody(o, c);
      if Intend(d, t).Success? {
        GoodIsRoomy(d);
        IntendedOrders(d, t);
        var o' := Decide(o, c).value.order;
        if Taken(c).Some? {
          TakersOccupy(o, c);
          RoomForTaker(d, k, o', Taken(c).value);
        } else {
          KeepsItsPlace(d, k, c);
          RoomKept(d.orders, k, o');
        }
      }
    }
  }

  lemma RedundantTakesNobody(o: Order, c: Command)
    ensures Redundant(o, c) ==> Taken(c).None? && !c.StartTravel?
  {
  }

  /** The event of the session that a command opens or closes. */
  ghost function Escort(d: Data, k: Key, c: Command, start: SessionStart): seq<Event>
    requires Good(d)
  {
    FindActiveSucceeds(d, k);
    var active := FindActive(d.sessions, k).value;
    if c.StartTravel? then [Event(SessionAggregate, (k.0, start.id), 1, TrackingStarted)]
    else if Ends(c) && active.Some? then
      [Event(SessionAggregate, active.value.Key(), active.value.version + 1,
             if c.Cancel? then TrackingCancelled(c.reason) else TrackingCompleted(|active.value.points|))]
    else []
  }

  lemma PartIsEscorted(d: Data, k: Key, c: Command, start: SessionStart)
    requires Good(d) && SessionPart(d, k, c, start).Success?
    ensures var part := SessionPart(d, k, c, start).value;
            (if part.Some? then Noted(part.value) else []) == Escort(d, k, c, start)
  {
    hide FindActive;
    hide TokenOk;
    FindActiveSucceeds(d, k);
  }

  /** A command that succeeds announces itself and the session it opens or closes, and nothing
      else; one that asks for what is the case announces nothing and changes nothing. */
  lemma CommandsAnnounce(d: Data, t: Txn)
    requires Good(d) && t.request.OnOrder? && Atomically(d, t).Success?
    ensures var OnOrder(k, c, start) := t.request;
            && k in d.orders
            && if Redundant(d.orders[k], c) then Atomically(d, t).value == d
               else Atomically(d, t).value.outbox
                    == d.outbox + [Event(OrderAggregate, k, d.orders[k].version + 1, Announcement(c))] + Escort(d, k, c, start)
  {
    hide Good;
    hide Decide;
    hide SessionPart;
    hide Legal;
    hide Redundant;
    hide WellPut;
    hide Escort;
    hide Announcement;
    hide Atomically;
    hide CommandWrites;
    var OnOrder(k, c, start) := t.request;
    AtomicWrites(d, t);
    var o := d.orders[k];
    SoundAt(d, k);
    DecidesExactly(o, c);
    DecideKeepsSound(o, c);
    PartIsEscorted(d, k, c, start);
    var x, part := Decide(o, c).value, SessionPart(d, k, c, start).value;
    if Redundant(o, c) {
      RedundantNeedsNoSession(o, d, c, start, k);
      UnchangedWrites(d, k);
    } else {
      assert Recorded(x) == [Event(OrderAggregate, k, o.version + 1, Announcement(c))];
      WritesAnnounce(d.outbox, k, x, part);
    }
  }

  lemma AtomicWrites(d: Data, t: Txn)
    requires t.request.OnOrder? && Atomically(d, t).Success?
    ensures var OnOrder(k, c, start) := t.request;
            && k in d.orders && Decide(d.orders[k], c).Success? && SessionPart(d, k, c, start).Success?
            && Atomically(d, t).value == Apply(d, CommandWrites(k, Decide(d.orders[k], c).value, SessionPart(d, k, c, start).value))
  {
    hide Decide;
    hide SessionPart;
  }

  lemma WritesAnnounce(outbox: seq<Event>, k: Key, x: Decision, part: Option<SessionDecision>)
    ensures outbox + CommandWrites(k, x, part).events == outbox + Recorded(x) + (if part.Some? then Noted(part.value) else [])
  {
    if part.Some? { assert outbox + (Recorded(x) + Noted(part.value)) == outbox + Recorded(x) + Noted(part.value); }
  }

  lemma UnchangedWrites(d: Data, k: Key)
    requires k in d.orders
    ensures Apply(d, CommandWrites(k, Decision(d.orders[k], None), None)) == d
  {
    assert d.orders + map[k := d.orders[k]] == d.orders && d.sessions + map[] == d.sessions && d.outbox + [] == d.outbox;
  }

  lemma RedundantNeedsNoSession(o: Order, d: Data, c: Command, start: SessionStart, k: Key)
    requires Redundant(o, c)
    ensures SessionPart(d, k, c, start) == Success(None)
  {
  }

  /** The session holds a point of this event. */
  ghost predicate HoldsEvent(s: Session, eventId: Option<string>) {
    eventId.Some? && exists i :: 0 <= i < |s.points| && s.points[i].eventId == eventId
  }

  /** A location succeeds exactly for the executor of a session that is still active or knows the
      event already, with a position on Earth; the time it was captured never matters. It leaves
      everything as it is exactly when the session knows the event, else the session has one point more. */
  lemma LocationsSucceedExactly(d: Data, t: Txn)
    requires Good(d) && t.request.Locate?
    ensures var Locate(k, executor, fix) := t.request;
            && (Atomically(d, t).Success? <==>
                  && k in d.sessions && d.sessions[k].executor == executor && OnEarth(fix)
                  && (d.sessions[k].status == Active || HoldsEvent(d.sessions[k], fix.eventId)))
            && (Atomically(d, t).Success? ==>
                  if HoldsEvent(d.sessions[k], fix.eventId) then Atomically(d, t).value == d
                  else k in Atomically(d, t).value.sessions && |Atomically(d, t).value.sessions[k].points| == |d.sessions[k].points| + 1)
  {
    hide Good;
    hide Roomy;
    hide Stamped;
    hide PointOk;
    hide OnEarth;
    GoodIsRoomy(d);
    NoOrderNoChange(d.orders);
    var Locate(k, executor, fix) := t.request;
    if k in d.sessions {
      OnEarthIsWellFormed(d.sessions[k], fix, t.now);
      FixesAreStoredAsSent(d.sessions[k], fix, t.now);
      if PointOk(Stamped(d.sessions[k], fix, t.now)) { ClampedFixesAreInOrder(d.sessions[k], fix, t.now); }
      SoundSessionAt(d, k);
      assert d.sessions + map[k := d.sessions[k]] == d.sessions && d.outbox + [] == d.outbox;
      assert HoldsEvent(d.sessions[k], fix.eventId) <==> fix.eventId.Some? && HasEventId(d.sessions[k].points, fix.eventId.value);
    }
  }

  lemma SoundSessionAt(d: Data, k: Key)
    requires Good(d) && k in d.sessions
    ensures SoundSession(d.sessions[k]) && d.sessions[k].Key() == k
  {
  }

  /** A creation succeeds exactly when it is named, has drawn a number and its id is free. */
  lemma CreationsSucceedExactly(d: Data, t: Txn)
    requires Good(d) && t.request.Create?
    ensures var Create(k, intent, _) := t.request;
            Atomically(d, t).Success? <==> k.0 != "" && k.1 != "" && t.number != "" && intent.workType != "" && k !in d.orders
  {
    hide Good;
    hide Roomy;
    GoodIsRoomy(d);
    var Create(k, intent, _) := t.request;
    if Submit(k, t.number, intent).Success? && k !in d.orders { RoomKept(d.orders, k, Submit(k, t.number, intent).value.order); }
  }
}
