/** Where everything in the store comes from: each order, report, session, token, point
    and event is what one committed request asked for. */
module Provenance {
  import opened Prelude
  import opened Domain
  import opened WorkOrders
  import opened Tracking
  import opened EventLog
  import opened MemoryStore
  import opened Service
  import opened Interleaving
  import opened Runs
  import opened Guarantees

  // What a request asks for --------------------------------------------------------------

  predicate Created(t: Txn, o: Order) {
    t.request.Create? && t.request.key == o.Key() && t.request.intent == o.intent && t.number == o.number
  }

  /** The assignee reported exactly this. */
  predicate Reported(t: Txn, o: Order) {
    && o.assignee.Some? && o.report.Some? && t.request.OnOrder? && t.request.key == o.Key()
    && t.request.command == Command.Complete(o.assignee.value, o.report.value)
  }

  /** The executor set out for the order with this session, and while it is active it holds the
      two tokens of that request, each in its own place. */
  predicate SetOut(t: Txn, s: Session) {
    && t.request.OnOrder? && t.request.key == OrderKey(s) && t.request.command == Command.StartTravel(s.executor)
    && t.request.start.id == s.id
    && (s.status == Active ==>
          s.publicToken == Some(t.request.start.publicToken) && s.locationToken == Some(t.request.start.locationToken))
  }

  function Later(a: int, b: int): int {
    if a >= b then a else b
  }

  /** The session's executor sent the position; it is stored as sent, except that a time before
      the previous point becomes the later of the arrival and that point. */
  predicate Sighted(t: Txn, s: Session, i: nat)
    requires i < |s.points|
  {
    && t.request.Locate? && t.request.session == s.Key() && t.request.executor == s.executor
    && var fix, p := t.request.fix, s.points[i];
    && p.latitude == fix.latitude && p.longitude == fix.longitude && p.accuracy == fix.accuracy
    && p.source == fix.source && p.eventId == fix.eventId && p.ingestedAt == t.now
    && var observed := if fix.captured.Some? then fix.captured.value else t.now;
    && p.capturedAt == if i == 0 || observed >= s.points[i - 1].capturedAt then observed else Later(t.now, s.points[i - 1].capturedAt)
  }

  predicate Announced(t: Txn, e: Event) {
    match t.request
    case Create(key, intent, _) => e == Event(OrderAggregate, key, 1, OrderSubmitted(t.number, intent.source, intent.requester))
    case OnOrder(key, c, start) =>
      e.key.0 == key.0 &&
      if e.aggregate == OrderAggregate then e.key == key && e.payload == Announcement(c)
      else if c.StartTravel? then e == Event(SessionAggregate, (key.0, start.id), 1, TrackingStarted)
      else if c.Cancel? then e.payload == TrackingCancelled(c.reason)
      else c.Complete? && e.payload.TrackingCompleted?
    case Locate(key, _, fix) =>
      && e.aggregate == SessionAggregate && e.key == key
      && e.payload.PointRecorded? && e.payload.source == fix.source && e.payload.eventId == fix.eventId
  }

  // One transaction ----------------------------------------------------------------------

  lemma OrderStep(d: Data, t: Txn, k: Key)
    requires Good(d) && Atomically(d, t).Success? && k in Atomically(d, t).value.orders
    ensures var o' := Atomically(d, t).value.orders[k];
            if k !in d.orders then Created(t, o') && o'.report.None?
            else
              var o := d.orders[k];
              o' == o || (o'.Key() == o.Key() && o'.intent == o.intent && o'.number == o.number && (o'.report.None? || Reported(t, o')))
  {
    hide Good;
    hide Decide;
    hide SessionPart;
    hide Observe;
    hide Submit;
    hide Reported;
    hide Created;
    match t.request {
      case Create(key, intent, _) => CreationStep(t);
      case Locate(_, _, _) =>
      case OnOrder(key, c, _) =>
        IntendedOrders(d, t);
        SoundAt(d, key);
        ReportStep(d.orders[key], t);
    }
  }

  lemma CreationStep(t: Txn)
    requires t.request.Create? && Submit(t.request.key, t.number, t.request.intent).Success?
    ensures var o := Submit(t.request.key, t.number, t.request.intent).value.order; Created(t, o) && o.report.None?
  {
  }

  lemma ReportStep(o: Order, t: Txn)
    requires t.request.OnOrder? && t.request.key == o.Key() && Sound(o) && Decide(o, t.request.command).Success?
    ensures var o' := Decide(o, t.request.command).value.order;
            || o' == o
            || (o'.Key() == o.Key() && o'.intent == o.intent && o'.number == o.number && (o'.report.None? || Reported(t, o')))
  {
    hide MeetsEvidence;
    hide Resolved;
  }

  /** What becomes of a session: nothing, one more point, or its end. */
  ghost predicate SessionMoved(t: Txn, s: Session, s': Session) {
    && s'.Key() == s.Key() && s'.orderId == s.orderId && s'.executor == s.executor
    && (s'.status == Active ==> s.status == Active && s'.publicToken == s.publicToken && s'.locationToken == s.locationToken)
    && (s'.points == s.points
        || (|s'.points| == |s.points| + 1 && s'.points[..|s.points|] == s.points && Sighted(t, s', |s.points|)))
  }

  lemma FixIsSighted(s: Session, t: Txn)
    requires t.request.Locate? && t.request.session == s.Key() && t.request.executor == s.executor
    requires Observe(s, t.request.fix, t.now).Success?
    ensures SessionMoved(t, s, Observe(s, t.request.fix, t.now).value.session)
  {
    hide PointOk;
    hide HasEventId;
  }

  lemma DepartureSetsOut(d: Data, t: Txn, y: SessionDecision)
    requires t.request.OnOrder? && t.request.command.StartTravel?
    requires SessionPart(d, t.request.key, t.request.command, t.request.start) == Success(Some(y))
    ensures SetOut(t, y.session) && y.session.Key() !in d.sessions && y.session.points == []
  {
    hide TokenOk;
  }

  lemma ClosingMoves(d: Data, t: Txn, y: SessionDecision)
    requires Good(d) && t.request.OnOrder? && !t.request.command.StartTravel?
    requires SessionPart(d, t.request.key, t.request.command, t.request.start) == Success(Some(y))
    ensures y.session.Key() in d.sessions && SessionMoved(t, d.sessions[y.session.Key()], y.session)
  {
    hide FindActive;
    hide Sighted;
    FindActiveSucceeds(d, t.request.key);
  }

  lemma SessionStep(d: Data, t: Txn, k: Key)
    requires Good(d) && Atomically(d, t).Success? && k in Atomically(d, t).value.sessions
    ensures var s' := Atomically(d, t).value.sessions[k];
            if k in d.sessions then s' == d.sessions[k] || SessionMoved(t, d.sessions[k], s')
            else SetOut(t, s') && s'.points == []
  {
    hide Good;
    hide Decide;
    hide SessionPart;
    hide Observe;
    hide SessionMoved;
    hide SetOut;
    match t.request {
      case Create(_, _, _) =>
      case Locate(key, _, _) =>
        if k == key {
          SoundSessionAt(d, k);
          FixIsSighted(d.sessions[k], t);
        }
      case OnOrder(key, c, start) =>
        var part := SessionPart(d, key, c, start).value;
        if part.Some? {
          if c.StartTravel? { DepartureSetsOut(d, t, part.value); } else { ClosingMoves(d, t, part.value); }
        }
    }
  }

  lemma EventStep(d: Data, t: Txn, i: nat)
    requires Good(d) && Atomically(d, t).Success? && |d.outbox| <= i < |Atomically(d, t).value.outbox|
    ensures Announced(t, Atomically(d, t).value.outbox[i])
  {
    hide Good;
    hide Decide;
    hide SessionPart;
    hide Observe;
    hide Announced;
    match t.request {
      case Create(key, intent, _) => SubmissionAnnounced(t);
      case Locate(key, _, _) =>
        SoundSessionAt(d, key);
        PointAnnounced(d.sessions[key], t);
      case OnOrder(key, c, start) =>
        SoundAt(d, key);
        CommandAnnounced(d.orders[key], t);
        var part := SessionPart(d, key, c, start).value;
        if part.Some? {
          PartAnnounced(d, t, part.value);
        }
    }
  }

  lemma SubmissionAnnounced(t: Txn)
    requires t.request.Create? && Submit(t.request.key, t.number, t.request.intent).Success?
    ensures forall e :: e in Recorded(Submit(t.request.key, t.number, t.request.intent).value) ==> Announced(t, e)
  {
  }

  lemma PointAnnounced(s: Session, t: Txn)
    requires t.request.Locate? && t.request.session == s.Key() && Observe(s, t.request.fix, t.now).Success?
    ensures forall e :: e in Noted(Observe(s, t.request.fix, t.now).value) ==> Announced(t, e)
  {
    hide PointOk;
    hide HasEventId;
  }

  lemma CommandAnnounced(o: Order, t: Txn)
    requires Sound(o) && t.request.OnOrder? && t.request.key == o.Key() && Decide(o, t.request.command).Success?
    ensures forall e :: e in Recorded(Decide(o, t.request.command).value) ==> Announced(t, e)
  {
    hide Decide;
    hide Announcement;
    hide Legal;
    hide Redundant;
    hide WellPut;
    hide ReplayEvent;
    DecidesExactly(o, t.request.command);
    DecideKeepsSound(o, t.request.command);
  }

  lemma PartAnnounced(d: Data, t: Txn, y: SessionDecision)
    requires Good(d) && t.request.OnOrder?
    requires SessionPart(d, t.request.key, t.request.command, t.request.start) == Success(Some(y))
    ensures forall e :: e in Noted(y) ==> Announced(t, e)
  {
    hide FindActive;
    hide TokenOk;
    hide Announcement;
    FindActiveSucceeds(d, t.request.key);
  }

  // Every run -------------------------------------------------------------------------------

  ghost predicate OrderSourced(h: seq<Txn>, o: Order) {
    && (exists n :: 0 <= n < |h| && Created(h[n], o))
    && (o.report.Some? ==> exists n :: 0 <= n < |h| && Reported(h[n], o))
  }

  ghost predicate PointSourced(h: seq<Txn>, s: Session, i: nat)
    requires i < |s.points|
  {
    exists n :: 0 <= n < |h| && Sighted(h[n], s, i)
  }

  ghost predicate SessionSourced(h: seq<Txn>, s: Session) {
    && (exists n :: 0 <= n < |h| && SetOut(h[n], s))
    && (forall i :: 0 <= i < |s.points| ==> PointSourced(h, s, i))
  }

  ghost predicate EventSourced(h: seq<Txn>, e: Event) {
    exists n :: 0 <= n < |h| && Announced(h[n], e)
  }

  ghost predicate Sourced(h: seq<Txn>, d: Data) {
    && (forall k :: k in d.orders ==> OrderSourced(h, d.orders[k]))
    && (forall k :: k in d.sessions ==> SessionSourced(h, d.sessions[k]))
    && (forall i :: 0 <= i < |d.outbox| ==> EventSourced(h, d.outbox[i]))
  }

  lemma OrderStaysSourced(h: seq<Txn>, d: Data, t: Txn, k: Key)
    requires Good(d) && Sourced(h, d) && Atomically(d, t).Success? && k in Atomically(d, t).value.orders
    ensures OrderSourced(h + [t], Atomically(d, t).value.orders[k])
  {
    hide Good;
    hide Atomically;
    OrderStep(d, t, k);
    var o' := Atomically(d, t).value.orders[k];
    assert (h + [t])[|h|] == t;
    if k in d.orders {
      assert OrderSourced(h, d.orders[k]);
      var n :| 0 <= n < |h| && Created(h[n], d.orders[k]);
      assert (h + [t])[n] == h[n] && Created((h + [t])[n], o');
      if o' == d.orders[k] && o'.report.Some? {
        var m :| 0 <= m < |h| && Reported(h[m], o');
        assert (h + [t])[m] == h[m];
      }
    }
  }

  lemma StillSighted(was: Txn, t: Txn, s: Session, s': Session, i: nat)
    requires i < |s.points| && Sighted(was, s, i) && SessionMoved(t, s, s')
    ensures i < |s'.points| && Sighted(was, s', i)
  {
    if s'.points != s.points {
      assert s'.points[i] == s'.points[..|s.points|][i];
      if i > 0 { assert s'.points[i - 1] == s'.points[..|s.points|][i - 1]; }
    }
  }

  lemma PointStaysSourced(h: seq<Txn>, t: Txn, s: Session, s': Session, i: nat)
    requires SessionSourced(h, s) && SessionMoved(t, s, s') && i < |s'.points|
    ensures PointSourced(h + [t], s', i)
  {
    hide Sighted;
    if i < |s.points| {
      assert PointSourced(h, s, i);
      var n :| 0 <= n < |h| && Sighted(h[n], s, i);
      StillSighted(h[n], t, s, s', i);
      assert (h + [t])[n] == h[n];
    } else {
      assert (h + [t])[|h|] == t;
    }
  }

  lemma SessionStaysSourced(h: seq<Txn>, d: Data, t: Txn, k: Key)
    requires Good(d) && Sourced(h, d) && Atomically(d, t).Success? && k in Atomically(d, t).value.sessions
    ensures SessionSourced(h + [t], Atomically(d, t).value.sessions[k])
  {
    hide Good;
    hide Atomically;
    hide Sighted;
    SessionStep(d, t, k);
    var s' := Atomically(d, t).value.sessions[k];
    assert (h + [t])[|h|] == t;
    if k in d.sessions {
      var s := d.sessions[k];
      var n :| 0 <= n < |h| && SetOut(h[n], s);
      assert (h + [t])[n] == h[n];
      if s' == s {
        forall i | 0 <= i < |s'.points| ensures PointSourced(h + [t], s', i) {
          assert PointSourced(h, s, i);
          var m :| 0 <= m < |h| && Sighted(h[m], s, i);
          assert (h + [t])[m] == h[m];
        }
      } else {
        assert SetOut((h + [t])[n], s');
        forall i | 0 <= i < |s'.points| ensures PointSourced(h + [t], s', i) {
          PointStaysSourced(h, t, s, s', i);
        }
      }
    }
  }

  lemma EventStaysSourced(h: seq<Txn>, d: Data, t: Txn, i: nat)
    requires Good(d) && Sourced(h, d) && Atomically(d, t).Success? && i < |Atomically(d, t).value.outbox|
    ensures EventSourced(h + [t], Atomically(d, t).value.outbox[i])
  {
    hide Good;
    hide Announced;
    hide Decide;
    hide SessionPart;
    hide Observe;
    if i < |d.outbox| {
      assert Atomically(d, t).value.outbox[i] == d.outbox[i];
      var n :| 0 <= n < |h| && Announced(h[n], d.outbox[i]);
      assert (h + [t])[n] == h[n];
    } else {
      EventStep(d, t, i);
      assert (h + [t])[|h|] == t;
    }
  }

  lemma {:induction false} SerialIsSourced(h: seq<Txn>)
    requires Serial(h).Success?
    ensures Good(Serial(h).value) && Sourced(h, Serial(h).value)
  {
    hide Good;
    hide Atomically;
    hide OrderSourced;
    hide SessionSourced;
    hide EventSourced;
    if h == [] {
      EmptyIsGood();
    } else {
      var n := |h| - 1;
      SerialIsSourced(h[..n]);
      var d, t := Serial(h[..n]).value, h[n];
      assert h[..n] + [t] == h;
      TransactionsKeepGood(d, t);
      var d' := Atomically(d, t).value;
      forall k | k in d'.orders ensures OrderSourced(h, d'.orders[k]) { OrderStaysSourced(h[..n], d, t, k); }
      forall k | k in d'.sessions ensures SessionSourced(h, d'.sessions[k]) { SessionStaysSourced(h[..n], d, t, k); }
      forall i | 0 <= i < |d'.outbox| ensures EventSourced(h, d'.outbox[i]) { EventStaysSourced(h[..n], d, t, i); }
    }
  }

  lemma StoredIsSourced(schedule: seq<Action>)
    ensures Sourced(Run(schedule).history, Stored(schedule))
  {
    hide Serial;
    hide Sourced;
    RunsAreSerializable(schedule);
    SerialIsSourced(Run(schedule).history);
  }

  /** In every reachable store an order is what a committed creation asked for, under the number
      it drew, and a report is the one its assignee submitted. */
  lemma OrdersComeFromRequests(schedule: seq<Action>, k: Key)
    requires k in Stored(schedule).orders
    ensures var h, o := Run(schedule).history, Stored(schedule).orders[k];
            && (exists n :: 0 <= n < |h| && Created(h[n], o))
            && (o.report.Some? ==> exists n :: 0 <= n < |h| && Reported(h[n], o))
  {
    hide Created;
    hide Reported;
    StoredIsSourced(schedule);
  }

  /** In every reachable store a session is the one its executor set out with, an active one still
      holds the tokens of that request, and every point is a position that executor sent. */
  lemma SessionsComeFromRequests(schedule: seq<Action>, k: Key)
    requires k in Stored(schedule).sessions
    ensures var h, s := Run(schedule).history, Stored(schedule).sessions[k];
            && (exists n :: 0 <= n < |h| && SetOut(h[n], s))
            && forall i :: 0 <= i < |s.points| ==> PointSourced(h, s, i)
  {
    hide Serial;
    hide Sighted;
    hide SetOut;
    StoredIsSourced(schedule);
  }

  /** Every event of the outbox is what a committed request announces. */
  lemma EventsComeFromRequests(schedule: seq<Action>, i: nat)
    requires i < |Stored(schedule).outbox|
    ensures exists n :: 0 <= n < |Run(schedule).history| && Announced(Run(schedule).history[n], Stored(schedule).outbox[i])
  {
    StoredIsSourced(schedule);
    assert EventSourced(Run(schedule).history, Stored(schedule).outbox[i]);
  }
}
