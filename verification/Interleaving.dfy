/** Any number of units of work in flight. Every repository call, and the commit,
    is one step; the steps of different units interleave in any order. Every
    committed run is then shown to equal a serial one. */
module Interleaving {
  import opened Prelude
  import opened Domain
  import opened WorkOrders
  import opened Tracking
  import opened EventLog
  import opened MemoryStore
  import opened Service
  import OrderNumbers

  /** The next repository call of a unit of work. */
  datatype Call =
    | AllocateNumber
    | GetOrder
    | SaveOrder
    | FindActiveSession
    | GetSession
    | CheckSourceEvent
    | SaveSession
    | AddEvents
    | CommitWrites
    | RereadOrder
    | CommitNothing
    | Done

  datatype Outcome = Returned(order: Option<Order>) | Raised(error: Error)

  /** One command: the snapshots it has read, what it decided on them, and what it has staged. */
  datatype Unit = Unit(
    request: Request,
    call: Call,
    number: string,
    now: int,
    order: Option<Order>,
    decision: Option<Decision>,
    session: Option<Session>,
    part: Option<SessionDecision>,
    staging: Staging,
    outcome: Option<Outcome>)

  function Fresh(r: Request): Unit {
    var first := match r case Create(_, _, _) => AllocateNumber case OnOrder(_, _, _) => GetOrder case Locate(_, _, _) => GetSession;
    Unit(r, first, "", 0, None, None, None, None, NOTHING, None)
  }

  function Finish(u: Unit, outcome: Outcome): Unit {
    u.(call := Done, staging := NOTHING, outcome := Some(outcome))
  }

  function TxnOf(u: Unit): Txn {
    Txn(u.request, u.number, u.now)
  }

  datatype Config = Config(data: Data, counters: map<string, nat>, units: seq<Unit>, history: seq<Txn>)

  const START := Config(EMPTY, map[], [], [])

  datatype Action = Spawn(request: Request) | Advance(unit: nat, now: int)

  function NextSequence(counters: map<string, nat>, org: string): nat {
    (if org in counters then counters[org] else 0) + 1
  }

  function Allocated(u: Unit, sequence: nat): Unit
    requires u.request.Create? && sequence >= 1
  {
    OrderNumbers.ParseInvertsFormat(sequence);
    var number := OrderNumbers.Format(sequence).value;
    match Submit(u.request.key, number, u.request.intent)
    case Failure(e) => Finish(u.(number := number), Raised(e))
    case Success(x) => u.(number := number, decision := Some(x), call := SaveOrder)
  }

  /** The order is read, the command decides on it, and a new session is prepared, in one step. */
  function WithOrder(u: Unit, orders: map<Key, Order>): Unit
    requires u.request.OnOrder?
  {
    var key, c := u.request.key, u.request.command;
    if key !in orders then Finish(u, Raised(NotFound))
    else
      match Decide(orders[key], c)
      case Failure(e) => Finish(u, Raised(e))
      case Success(x) =>
        var v := u.(order := Some(orders[key]), decision := Some(x), call := SaveOrder);
        if c.StartTravel? then
          match Begin(key, c.executor, u.request.start)
          case Failure(e) => Finish(u, Raised(e))
          case Success(y) => v.(part := Some(y))
        else v
  }

  function OrderSaved(u: Unit): Unit
    requires u.decision.Some? && !u.request.Locate?
  {
    var expected := if u.order.Some? then Some(u.order.value.version) else None;
    var next := if u.request.Create? then AddEvents
                else if u.request.command.StartTravel? then SaveSession
                else if Ends(u.request.command) then FindActiveSession
                else AddEvents;
    u.(staging := u.staging.(orders := u.staging.orders[u.request.key := Staged(u.decision.value.order, expected)]), call := next)
  }

  /** The active session is looked up by status, without a version. */
  ghost function WithActiveSession(u: Unit, sessions: map<Key, Session>): Unit
    requires u.request.OnOrder?
  {
    match FindActive(sessions, u.request.key)
    case Failure(e) => Finish(u, Raised(e))
    case Success(None) => u.(call := AddEvents)
    case Success(Some(s)) =>
      match Close(s, Reason(u.request.command))
      case Failure(e) => Finish(u, Raised(e))
      case Success(y) => u.(session := Some(s), part := Some(y), call := SaveSession)
  }

  function Observed(u: Unit, now: int): Unit
    requires u.request.Locate? && u.session.Some?
  {
    match Observe(u.session.value, u.request.fix, now)
    case Failure(e) => Finish(u, Raised(e))
    case Success(y) => u.(now := now, part := Some(y), call := SaveSession)
  }

  function WithSession(u: Unit, sessions: map<Key, Session>, now: int): Unit
    requires u.request.Locate?
  {
    var key := u.request.session;
    if key !in sessions then Finish(u, Raised(NotFound))
    else if sessions[key].executor != u.request.executor then Finish(u, Raised(InvalidTransition))
    else
      var v := u.(session := Some(sessions[key]));
      if u.request.fix.eventId.Some? then v.(call := CheckSourceEvent) else Observed(v, now)
  }

  function SourceChecked(u: Unit, sessions: map<Key, Session>, now: int): Unit
    requires u.request.Locate? && u.session.Some? && u.request.fix.eventId.Some?
  {
    if HasSourceEvent(sessions, u.request.session.0, u.request.fix.source, u.request.fix.eventId.value)
    then u.(call := CommitNothing, outcome := Some(Returned(None)))
    else Observed(u, now)
  }

  function SessionSaved(u: Unit): Unit
    requires u.part.Some?
  {
    var s := u.part.value.session;
    var expected := if u.session.Some? then Some(u.session.value.version) else None;
    u.(staging := u.staging.(sessions := u.staging.sessions[s.Key() := Staged(s, expected)]), call := AddEvents)
  }

  function Pulled(u: Unit): seq<Event> {
    (if u.decision.Some? then Recorded(u.decision.value) else []) + (if u.part.Some? then Noted(u.part.value) else [])
  }

  /** The fallback of an idempotent creation: the stored order, if it has the same intent. */
  function Reread(u: Unit, orders: map<Key, Order>): Unit
    requires u.request.Create?
  {
    var key := u.request.key;
    if key !in orders then Finish(u, Raised(NotFound))
    else if orders[key].intent != u.request.intent then Finish(u, Raised(ConcurrencyConflict))
    else u.(call := CommitNothing, outcome := Some(Returned(Some(orders[key]))))
  }

  ghost predicate Enabled(u: Unit) {
    match u.call
    case AllocateNumber => u.request.Create?
    case GetOrder => u.request.OnOrder?
    case SaveOrder => u.decision.Some? && !u.request.Locate?
    case FindActiveSession => u.request.OnOrder?
    case GetSession => u.request.Locate?
    case CheckSourceEvent => u.request.Locate? && u.session.Some? && u.request.fix.eventId.Some?
    case SaveSession => u.part.Some?
    case RereadOrder => u.request.Create?
    case CommitNothing => u.outcome.Some?
    case _ => true
  }

  predicate ReadsOnly(c: Call) {
    c != AllocateNumber && c != CommitWrites && c != Done
  }

  /** A step that only reads the committed data. */
  ghost function ReadStep(u: Unit, d: Data, now: int): Unit
    requires Enabled(u) && u.call != AllocateNumber && u.call != CommitWrites && u.call != Done
  {
    match u.call
    case GetOrder => WithOrder(u, d.orders)
    case SaveOrder => OrderSaved(u)
    case FindActiveSession => WithActiveSession(u, d.sessions)
    case GetSession => WithSession(u, d.sessions, now)
    case CheckSourceEvent => SourceChecked(u, d.sessions, now)
    case SaveSession => SessionSaved(u)
    case AddEvents => u.(staging := u.staging.(events := u.staging.events + Pulled(u)), call := CommitWrites)
    case RereadOrder => Reread(u, d.orders)
    case CommitNothing =>
      (match CommitTo(d, NOTHING) case Failure(e) => Finish(u, Raised(e)) case Success(_) => Finish(u, u.outcome.value))
  }

  /** The commit's conflict is final, except for an idempotent creation, which reads the winner. */
  function Conflicted(u: Unit, e: Error): Unit {
    if u.request.Create? && u.request.once then u.(call := RereadOrder, staging := NOTHING) else Finish(u, Raised(e))
  }

  function Succeeded(u: Unit): Unit {
    Finish(u, Returned(if u.decision.Some? then Some(u.decision.value.order) else None))
  }

  ghost function Next(c: Config, a: Action): Config {
    match a
    case Spawn(r) => c.(units := c.units + [Fresh(r)])
    case Advance(i, now) =>
      if i >= |c.units| || !Enabled(c.units[i]) || c.units[i].call == Done then c
      else
        var u := c.units[i];
        if u.call == AllocateNumber then
          var sequence := NextSequence(c.counters, u.request.key.0);
          c.(units := c.units[i := Allocated(u, sequence)], counters := c.counters[u.request.key.0 := sequence])
        else if u.call == CommitWrites then
          match CommitTo(c.data, u.staging)
          case Failure(e) => c.(units := c.units[i := Conflicted(u, e)])
          case Success(d) => c.(data := d, units := c.units[i := Succeeded(u)], history := c.history + [TxnOf(u)])
        else c.(units := c.units[i := ReadStep(u, c.data, now)])
  }

  /** The configuration after a schedule of actions. */
  ghost function Run(schedule: seq<Action>): Config {
    if schedule == [] then START else Next(Run(schedule[..|schedule| - 1]), schedule[|schedule| - 1])
  }

  // How the committed data evolves -----------------------------------------------

  ghost predicate OrderOnward(d: Data, d': Data, k: Key) {
    k in d.orders ==>
      && k in d'.orders
      && d.orders[k].version <= d'.orders[k].version
      && (d.orders[k].version == d'.orders[k].version ==> d.orders[k] == d'.orders[k])
      && d.orders[k].intent == d'.orders[k].intent && d.orders[k].number == d'.orders[k].number
  }

  ghost predicate SessionOnward(d: Data, d': Data, k: Key) {
    k in d.sessions ==>
      && k in d'.sessions
      && d.sessions[k].version <= d'.sessions[k].version
      && (d.sessions[k].version == d'.sessions[k].version ==> d.sessions[k] == d'.sessions[k])
  }

  /** While an order keeps its version, no session becomes active or inactive for it. */
  ghost predicate NoPhantom(d: Data, d': Data, k: Key) {
    k in d.orders && k in d'.orders && d.orders[k].version == d'.orders[k].version ==>
      forall a :: ActiveFor(d.sessions, a, k) <==> ActiveFor(d'.sessions, a, k)
  }

  ghost predicate Evolves(d: Data, d': Data) {
    && (forall k :: OrderOnward(d, d', k))
    && (forall k :: SessionOnward(d, d', k))
    && (forall k :: NoPhantom(d, d', k))
    && d.outbox <= d'.outbox
  }

  lemma CreateEvolves(d: Data, key: Key, o: Order, events: seq<Event>)
    requires key !in d.orders
    ensures Evolves(d, Apply(d, Writes(map[key := o], map[], events)))
  {
    assert d.sessions + map[] == d.sessions;
  }

  lemma SightingEvolves(d: Data, key: Key, y: SessionDecision)
    requires Keyed(d) && key in d.sessions && Steps(d.sessions[key], y) && y.session.status == d.sessions[key].status
    ensures Evolves(d, Apply(d, Writes(map[], map[key := y.session], Noted(y))))
  {
    hide SoundSession;
    assert d.orders + map[] == d.orders;
  }

  lemma CommandEvolves(d: Data, key: Key, c: Command, x: Decision, part: Option<SessionDecision>)
    requires Keyed(d) && key in d.orders && Moved(d.orders[key], c, x) && Escorted(d, key, c, part)
    ensures Evolves(d, Apply(d, CommandWrites(key, x, part)))
  {
    hide Moved;
    hide Escorted;
    hide OrderOnward;
    hide SessionOnward;
    hide NoPhantom;
    var d' := Apply(d, CommandWrites(key, x, part));
    forall k ensures OrderOnward(d, d', k) { CommandMovesOn(d, key, c, x, part, k); }
    forall k ensures SessionOnward(d, d', k) { CommandMovesOn(d, key, c, x, part, k); }
    forall k ensures NoPhantom(d, d', k) { CommandHasNoPhantom(d, key, c, x, part, k); }
  }

  lemma CommandMovesOn(d: Data, key: Key, c: Command, x: Decision, part: Option<SessionDecision>, k: Key)
    requires Keyed(d) && key in d.orders && Moved(d.orders[key], c, x) && Escorted(d, key, c, part)
    ensures OrderOnward(d, Apply(d, CommandWrites(key, x, part)), k)
    ensures SessionOnward(d, Apply(d, CommandWrites(key, x, part)), k)
  {
    hide ReplayEvent;
    hide ViewOf;
    hide Sound;
    hide SoundSession;
    hide TrailEvent;
  }

  /** A command that takes a session along moves its order's version, and no other order's session. */
  lemma EscortMovesVersion(d: Data, key: Key, c: Command, x: Decision, y: SessionDecision)
    requires Keyed(d) && key in d.orders && Moved(d.orders[key], c, x) && Escorted(d, key, c, Some(y))
    ensures x.order.version != d.orders[key].version && OrderKey(y.session) == key
    ensures y.session.Key() in d.sessions ==> OrderKey(d.sessions[y.session.Key()]) == key
  {
    hide ReplayEvent;
    hide ViewOf;
    hide Sound;
    hide SoundSession;
    hide TrailEvent;
  }

  lemma CommandHasNoPhantom(d: Data, key: Key, c: Command, x: Decision, part: Option<SessionDecision>, k: Key)
    requires Keyed(d) && key in d.orders && Moved(d.orders[key], c, x) && Escorted(d, key, c, part)
    ensures NoPhantom(d, Apply(d, CommandWrites(key, x, part)), k)
  {
    hide Moved;
    hide Escorted;
    hide Recorded;
    hide Noted;
    if part.None? {
      assert d.sessions + map[] == d.sessions;
    } else {
      EscortMovesVersion(d, key, c, x, part.value);
    }
  }

  lemma TransactionsEvolve(d: Data, t: Txn)
    requires Good(d) && Atomically(d, t).Success?
    ensures Evolves(d, Atomically(d, t).value)
  {
    match t.request {
      case Create(key, intent, _) =>
        var x := Submit(key, t.number, intent).value;
        CreateEvolves(d, key, x.order, Recorded(x));
      case Locate(key, _, fix) =>
        ObserveSteps(d.sessions[key], fix, t.now);
        SightingEvolves(d, key, Observe(d.sessions[key], fix, t.now).value);
      case OnOrder(key, c, _) =>
        var x, part := CommandIntends(d, t);
        CommandEvolves(d, key, c, x, part);
    }
  }

  // What a unit of work knows ------------------------------------------------------

  ghost predicate ReadOrder(d: Data, o: Order, key: Key) {
    && o.Key() == key && key in d.orders
    && o.version <= d.orders[key].version
    && (o.version == d.orders[key].version ==> o == d.orders[key])
  }

  ghost predicate ReadSession(d: Data, s: Session) {
    && s.Key() in d.sessions
    && s.version <= d.sessions[s.Key()].version
    && (s.version == d.sessions[s.Key()].version ==> s == d.sessions[s.Key()])
  }

  /** The unversioned lookup still answers correctly while the order's version stands. */
  ghost predicate LookupStands(d: Data, o: Order, key: Key, found: Option<Session>) {
    key in d.orders && d.orders[key].version == o.version ==>
      match found
      case None => forall a :: !ActiveFor(d.sessions, a, key)
      case Some(s) => ActiveFor(d.sessions, s.Key(), key)
  }

  function Planned(u: Unit): Staging {
    var orders := if u.decision.None? || u.request.Locate? || u.call == SaveOrder then map[]
                  else map[u.request.key := Staged(u.decision.value.order, if u.order.Some? then Some(u.order.value.version) else None)];
    var sessions := if u.part.None? || (u.call != AddEvents && u.call != CommitWrites) then map[]
                    else map[u.part.value.session.Key() :=
                               Staged(u.part.value.session, if u.session.Some? then Some(u.session.value.version) else None)];
    Staging(orders, sessions, if u.call == CommitWrites then Pulled(u) else [])
  }

  ghost predicate CreateKnows(d: Data, u: Unit)
    requires u.request.Create?
  {
    var key, intent := u.request.key, u.request.intent;
    && u.order.None? && u.session.None? && u.part.None?
    && match u.call
       case AllocateNumber => u.decision.None? && u.staging == NOTHING
       case SaveOrder => u.decision.Some? && Submit(key, u.number, intent) == Success(u.decision.value) && u.staging == Planned(u)
       case AddEvents => u.decision.Some? && Submit(key, u.number, intent) == Success(u.decision.value) && u.staging == Planned(u)
       case CommitWrites => u.decision.Some? && Submit(key, u.number, intent) == Success(u.decision.value) && u.staging == Planned(u)
       case RereadOrder => u.request.once && key in d.orders && u.staging == NOTHING
       case CommitNothing => u.request.once && u.staging == NOTHING && u.outcome.Some? && Answers(d, u)
       case Done => u.outcome.Some? && Answers(d, u)
       case _ => false
  }

  /** How an idempotent creation may end, judged by the store: it returns the one
      order of its id when the intents agree, and conflicts when they differ. */
  ghost predicate Answers(d: Data, u: Unit)
    requires u.request.Create? && u.outcome.Some?
  {
    var key := u.request.key;
    u.request.once ==>
      match u.outcome.value
      case Returned(found) =>
        && found.Some? && key in d.orders && d.orders[key].intent == u.request.intent == found.value.intent
        && found.value.Key() == key && found.value.number == d.orders[key].number
        && found.value.version <= d.orders[key].version
      case Raised(e) =>
        || (e == ValueError && (key.0 == "" || key.1 == "" || u.request.intent.workType == ""))
        || (e == ConcurrencyConflict && key in d.orders && d.orders[key].intent != u.request.intent)
  }

  /** The order was read and decided on; its decision stands while its version does. */
  ghost predicate HoldsDecision(d: Data, u: Unit)
    requires u.request.OnOrder?
  {
    && u.order.Some? && u.decision.Some? && ReadOrder(d, u.order.value, u.request.key)
    && Decide(u.order.value, u.request.command) == Success(u.decision.value)
    && u.staging == Planned(u)
  }

  ghost predicate HoldsSession(d: Data, u: Unit)
    requires u.request.OnOrder?
  {
    var key, c := u.request.key, u.request.command;
    if c.StartTravel? then
      u.session.None? && u.part.Some? && Begin(key, c.executor, u.request.start) == Success(u.part.value)
    else if Ends(c) && u.call != SaveOrder && u.call != FindActiveSession then
      && u.order.Some? && LookupStands(d, u.order.value, key, u.session)
      && (u.session.None? <==> u.part.None?)
      && (u.session.Some? ==>
            && ReadSession(d, u.session.value) && OrderKey(u.session.value) == key
            && Close(u.session.value, Reason(c)) == Success(u.part.value))
    else u.session.None? && u.part.None?
  }

  ghost predicate CommandKnows(d: Data, u: Unit)
    requires u.request.OnOrder?
  {
    match u.call
    case GetOrder => u.order.None? && u.decision.None? && u.session.None? && u.part.None? && u.staging == NOTHING
    case SaveOrder => HoldsDecision(d, u) && HoldsSession(d, u)
    case FindActiveSession => HoldsDecision(d, u) && HoldsSession(d, u) && Ends(u.request.command)
    case SaveSession => HoldsDecision(d, u) && HoldsSession(d, u) && u.part.Some?
    case AddEvents => HoldsDecision(d, u) && HoldsSession(d, u)
    case CommitWrites => HoldsDecision(d, u) && HoldsSession(d, u)
    case Done => true
    case _ => false
  }

  ghost predicate LocateKnows(d: Data, u: Unit)
    requires u.request.Locate?
  {
    var held := u.session.Some? && ReadSession(d, u.session.value) && u.session.value.Key() == u.request.session
                && u.session.value.executor == u.request.executor;
    var decided := held && u.part.Some? && Observe(u.session.value, u.request.fix, u.now) == Success(u.part.value);
    && u.order.None? && u.decision.None?
    && match u.call
       case GetSession => u.session.None? && u.part.None? && u.staging == NOTHING
       case CheckSourceEvent => held && u.part.None? && u.staging == NOTHING && u.request.fix.eventId.Some?
       case SaveSession => decided && u.staging == Planned(u)
       case AddEvents => decided && u.staging == Planned(u)
       case CommitWrites => decided && u.staging == Planned(u)
       case CommitNothing => u.staging == NOTHING && u.outcome.Some?
       case Done => true
       case _ => false
  }

  ghost predicate Knows(d: Data, u: Unit) {
    match u.request
    case Create(_, _, _) => CreateKnows(d, u)
    case OnOrder(_, _, _) => CommandKnows(d, u)
    case Locate(_, _, _) => LocateKnows(d, u)
  }

  /** What a unit knows survives whatever the others commit. */
  lemma KnowledgeSurvives(d: Data, d': Data, u: Unit)
    requires Knows(d, u) && Evolves(d, d')
    ensures Knows(d', u)
  {
    hide Decide;
    hide Submit;
    hide Begin;
    hide Close;
    hide Observe;
    match u.request {
      case Create(key, _, _) => assert OrderOnward(d, d', key);
      case OnOrder(key, _, _) =>
        assert OrderOnward(d, d', key) && NoPhantom(d, d', key);
        if u.session.Some? { assert SessionOnward(d, d', u.session.value.Key()); }
      case Locate(_, _, _) =>
        if u.session.Some? { assert SessionOnward(d, d', u.session.value.Key()); }
    }
  }

  // Commits are atomic ---------------------------------------------------------------

  lemma MergedOne<T>(stored: map<Key, T>, k: Key, s: Staged<T>)
    ensures Merged(stored, map[k := s]) == stored + map[k := s.value]
  {
  }

  lemma MergedNone<T>(stored: map<Key, T>)
    ensures Merged(stored, map[]) == stored
  {
  }

  lemma CreateCommits(d: Data, u: Unit)
    requires Good(d) && u.request.Create? && CreateKnows(d, u) && u.call == CommitWrites && CommitTo(d, u.staging).Success?
    ensures Atomically(d, TxnOf(u)) == CommitTo(d, u.staging)
  {
    hide Good;
    var key, o := u.request.key, u.decision.value.order;
    assert key in u.staging.orders;
    MergedOne(d.orders, key, u.staging.orders[key]);
    MergedNone(d.sessions);
    assert d.sessions + map[] == d.sessions;
    assert u.staging.events == Recorded(u.decision.value);
  }

  lemma LocateCommits(d: Data, u: Unit)
    requires Good(d) && u.request.Locate? && LocateKnows(d, u) && u.call == CommitWrites && CommitTo(d, u.staging).Success?
    ensures Atomically(d, TxnOf(u)) == CommitTo(d, u.staging)
  {
    hide Good;
    hide Observe;
    var key := u.request.session;
    ObserveKeepsKey(u.session.value, u.request.fix, u.now);
    assert key in u.staging.sessions;
    MergedOne(d.sessions, key, u.staging.sessions[key]);
    MergedNone(d.orders);
    assert d.orders + map[] == d.orders;
    assert u.staging.events == Noted(u.part.value);
  }

  lemma ObserveKeepsKey(s: Session, fix: Fix, now: int)
    requires Observe(s, fix, now).Success?
    ensures Observe(s, fix, now).value.session.Key() == s.Key()
  {
  }

  lemma CloseKeepsKey(s: Session, reason: Option<string>)
    requires Close(s, reason).Success?
    ensures Close(s, reason).value.session.Key() == s.Key() && s.status == Active
  {
  }

  /** At the commit the version check vouches for the order, and with it for the
      unversioned session lookup. */
  lemma PartStands(d: Data, u: Unit)
    requires Keyed(d) && Coupled(d) && u.request.OnOrder? && CommandKnows(d, u) && u.call == CommitWrites && Current(d, u.staging)
    ensures u.request.key in d.orders && d.orders[u.request.key] == u.order.value
    ensures SessionPart(d, u.request.key, u.request.command, u.request.start) == Success(u.part)
  {
    hide Decide;
    hide Begin;
    hide Close;
    hide Coupled;
    var key, c := u.request.key, u.request.command;
    assert key in u.staging.orders;
    if c.StartTravel? {
      var k := u.part.value.session.Key();
      assert k in u.staging.sessions && u.staging.sessions[k].expected == None;
    } else if Ends(c) {
      FindActiveSucceeds(d, key);
      if u.session.Some? {
        var s := u.session.value;
        CloseKeepsKey(s, Reason(c));
        assert s.Key() in u.staging.sessions;
        assert ActiveFor(d.sessions, s.Key(), key);
      }
    }
  }

  lemma GoodPartStands(d: Data, u: Unit)
    requires Good(d) && u.request.OnOrder? && CommandKnows(d, u) && u.call == CommitWrites && Current(d, u.staging)
    ensures u.request.key in d.orders && d.orders[u.request.key] == u.order.value
    ensures SessionPart(d, u.request.key, u.request.command, u.request.start) == Success(u.part)
    ensures u.decision.value.order.Key() == u.request.key
  {
    hide CommandKnows;
    hide SessionPart;
    PartStands(d, u);
    DecisionKeepsKey(d, u);
  }

  lemma DecisionKeepsKey(d: Data, u: Unit)
    requires u.request.OnOrder? && CommandKnows(d, u) && u.call == CommitWrites
    ensures u.decision.value.order.Key() == u.request.key
  {
    hide HoldsSession;
    DecideKeepsIdentity(u.order.value, u.request.command);
  }

  lemma DecideKeepsIdentity(o: Order, c: Command)
    requires Decide(o, c).Success?
    ensures Decide(o, c).value.order.Key() == o.Key()
  {
  }

  lemma CommandCommits(d: Data, u: Unit)
    requires Good(d) && u.request.OnOrder? && CommandKnows(d, u) && u.call == CommitWrites && CommitTo(d, u.staging).Success?
    ensures Atomically(d, TxnOf(u)) == CommitTo(d, u.staging)
  {
    hide Decide;
    hide SessionPart;
    hide HoldsSession;
    hide Good;
    hide Roomy;
    GoodPartStands(d, u);
    var key, x := u.request.key, u.decision.value;
    MergedOne(d.orders, key, u.staging.orders[key]);
    if u.part.Some? {
      var k := u.part.value.session.Key();
      MergedOne(d.sessions, k, u.staging.sessions[k]);
    } else {
      MergedNone(d.sessions);
      assert d.sessions + map[] == d.sessions;
      assert Pulled(u) == Recorded(x);
    }
  }

  /** A successful commit, whatever happened since the unit's reads, does what the
      whole command would have done on the data it commits to. */
  lemma CommitIsAtomic(d: Data, u: Unit)
    requires Good(d) && Knows(d, u) && u.call == CommitWrites && CommitTo(d, u.staging).Success?
    ensures Atomically(d, TxnOf(u)) == CommitTo(d, u.staging)
  {
    match u.request {
      case Create(_, _, _) => CreateCommits(d, u);
      case OnOrder(_, _, _) => CommandCommits(d, u);
      case Locate(_, _, _) => LocateCommits(d, u);
    }
  }

  /** A unit that knows what it should can always make its next call. */
  lemma KnowingUnitsGoOn(d: Data, u: Unit)
    requires Knows(d, u)
    ensures u.call == Done || Enabled(u)
  {
  }

  /** How many calls a unit has left at most. */
  function Remaining(c: Call): nat {
    match c
    case Done => 0
    case CommitNothing => 1
    case RereadOrder => 2
    case CommitWrites => 3
    case AddEvents => 4
    case SaveSession => 5
    case FindActiveSession => 6
    case CheckSourceEvent => 6
    case SaveOrder => 7
    case GetSession => 7
    case GetOrder => 8
    case AllocateNumber => 8
  }

  lemma ReadsRunOut(u: Unit, d: Data, now: int)
    requires Enabled(u) && ReadsOnly(u.call)
    ensures Remaining(ReadStep(u, d, now).call) < Remaining(u.call)
  {
    hide Decide;
    hide Submit;
    hide Begin;
    hide Close;
    hide Observe;
    hide CommitTo;
    hide FindActive;
    hide HasSourceEvent;
  }

  lemma StepsRunOut(c: Config, i: nat, now: int)
    requires i < |c.units| && Enabled(c.units[i]) && c.units[i].call != Done
    ensures var c' := Next(c, Advance(i, now));
            && |c'.units| == |c.units| && Remaining(c'.units[i].call) < Remaining(c.units[i].call)
            && forall j :: 0 <= j < |c.units| && j != i ==> c'.units[j] == c.units[j]
  {
    hide ReadStep;
    hide Enabled;
    hide Submit;
    hide CommitTo;
    hide OrderNumbers.Format;
    if ReadsOnly(c.units[i].call) { ReadsRunOut(c.units[i], c.data, now); }
  }

  // Every step keeps the invariant ---------------------------------------------------

  lemma CreateStepKnows(d: Data, u: Unit, now: int)
    requires Keyed(d) && Roomy(d.orders) && u.request.Create? && CreateKnows(d, u)
    requires Enabled(u) && ReadsOnly(u.call)
    ensures CreateKnows(d, ReadStep(u, d, now))
  {
    hide Submit;
    MergedNone(d.orders);
    MergedNone(d.sessions);
  }

  lemma OrderReadKnows(d: Data, u: Unit)
    requires Keyed(d) && u.request.OnOrder? && CommandKnows(d, u) && u.call == GetOrder
    ensures CommandKnows(d, WithOrder(u, d.orders))
  {
    hide Decide;
    hide Begin;
  }

  lemma OrderSavedKnows(d: Data, u: Unit)
    requires u.request.OnOrder? && CommandKnows(d, u) && u.call == SaveOrder
    ensures CommandKnows(d, OrderSaved(u))
  {
    hide Decide;
    hide Begin;
    hide Close;
  }

  lemma LookupKnows(d: Data, u: Unit)
    requires Keyed(d) && Coupled(d) && u.request.OnOrder? && CommandKnows(d, u) && u.call == FindActiveSession
    ensures CommandKnows(d, WithActiveSession(u, d.sessions))
  {
    hide Decide;
    hide Close;
    hide Coupled;
    FindActiveSucceeds(d, u.request.key);
  }

  lemma LateStepKnows(d: Data, u: Unit, now: int)
    requires u.request.OnOrder? && CommandKnows(d, u) && (u.call == SaveSession || u.call == AddEvents)
    ensures CommandKnows(d, ReadStep(u, d, now))
  {
    hide Decide;
    hide Begin;
    hide Close;
  }

  lemma CommandStepKnows(d: Data, u: Unit, now: int)
    requires Keyed(d) && Coupled(d) && u.request.OnOrder? && CommandKnows(d, u)
    requires Enabled(u) && ReadsOnly(u.call)
    ensures CommandKnows(d, ReadStep(u, d, now))
  {
    hide HoldsDecision;
    hide HoldsSession;
    match u.call {
      case GetOrder => OrderReadKnows(d, u);
      case SaveOrder => OrderSavedKnows(d, u);
      case FindActiveSession => LookupKnows(d, u);
      case _ => LateStepKnows(d, u, now);
    }
  }

  lemma LocateStepKnows(d: Data, u: Unit, now: int)
    requires Good(d) && u.request.Locate? && LocateKnows(d, u)
    requires Enabled(u) && ReadsOnly(u.call)
    ensures Knows(d, ReadStep(u, d, now))
  {
    hide Observe;
    hide AllSound;
    hide Logged;
    hide Coupled;
    hide Roomy;
    hide CommitTo;
    hide HasSourceEvent;
    hide FindActive;
    hide Decide;
    hide Begin;
    hide Close;
    hide Reread;
    hide WithOrder;
    hide WithActiveSession;
    hide OrderSaved;
  }

  lemma ReadStepsKeepRequest(d: Data, u: Unit, now: int)
    requires Enabled(u) && ReadsOnly(u.call)
    ensures ReadStep(u, d, now).request == u.request && ReadStep(u, d, now).number == u.number
  {
  }

  lemma ReadStepKnows(d: Data, u: Unit, now: int)
    requires Good(d) && Knows(d, u)
    requires Enabled(u) && ReadsOnly(u.call)
    ensures Knows(d, ReadStep(u, d, now))
  {
    hide CreateKnows;
    hide CommandKnows;
    hide LocateKnows;
    hide ReadStep;
    ReadStepsKeepRequest(d, u, now);
    match u.request {
      case Create(_, _, _) => CreateStepKnows(d, u, now);
      case OnOrder(_, _, _) => CommandStepKnows(d, u, now);
      case Locate(_, _, _) => LocateStepKnows(d, u, now);
    }
  }
}
