/** Tracking sessions in PostgreSQL. A session is loaded with only its latest point,
    and a save appends the points that are not stored yet; the rows must still hold
    the full, ordered history. One `record_location` is one transaction under the
    row lock of its session. */
module TrackingRows {
  import opened Prelude
  import opened Domain
  import opened Tracking

  /** The columns of a session row. */
  datatype SessionRow = SessionRow(
    orderId: string,
    executor: string,
    publicToken: Option<string>,
    locationToken: Option<string>,
    status: SessionStatus,
    pointCount: nat,
    version: nat)

  datatype Tables = Tables(sessions: map<Key, SessionRow>, points: map<(Key, nat), Point>)

  function RowOf(s: Session): SessionRow {
    SessionRow(s.orderId, s.executor, s.publicToken, s.locationToken, s.status, s.pointCount, s.version)
  }

  function SessionWith(k: Key, r: SessionRow, points: seq<Point>): Session {
    Session(k.0, k.1, r.orderId, r.executor, r.publicToken, r.locationToken, r.status, points, r.pointCount, r.pointCount, r.version)
  }

  /** The stored rows are numbered 1..point_count, with no gap and nothing beyond. */
  ghost predicate Contiguous(t: Tables) {
    && (forall k, n :: k in t.sessions ==> ((k, n) in t.points <==> 1 <= n <= t.sessions[k].pointCount))
    && (forall x :: x in t.points ==> x.0 in t.sessions)
  }

  /** The whole stored history of a session, in sequence order. */
  ghost function Rows(t: Tables, k: Key): seq<Point>
    requires Contiguous(t) && k in t.sessions
  {
    seq(t.sessions[k].pointCount, i requires 0 <= i < t.sessions[k].pointCount => t.points[(k, i + 1)])
  }

  /** What the repository loads: the columns and at most the latest point. */
  ghost function Loaded(t: Tables, k: Key): Session
    requires Contiguous(t) && k in t.sessions
  {
    var n := t.sessions[k].pointCount;
    SessionWith(k, t.sessions[k], if n == 0 then [] else [t.points[(k, n)]])
  }

  /** What a full load would hold. */
  ghost function Full(t: Tables, k: Key): Session
    requires Contiguous(t) && k in t.sessions
  {
    SessionWith(k, t.sessions[k], Rows(t, k))
  }

  predicate Matches(p: Point, source: LocationSource, eventId: string) {
    p.source == source && p.eventId == Some(eventId)
  }

  predicate Known(t: Tables, org: string, source: LocationSource, eventId: string) {
    exists x :: x in t.points && x.0.0 == org && Matches(t.points[x], source, eventId)
  }

  /** The unique index on organization, source and source event. */
  predicate Indexed(t: Tables, org: string, p: Point) {
    p.eventId.Some? ==> !Known(t, org, p.source, p.eventId.value)
  }

  class TrackingRepository {
    var sessions: map<Key, SessionRow>
    var points: map<(Key, nat), Point>

    function State(): Tables
      reads this
    {
      Tables(sessions, points)
    }

    constructor (t: Tables)
      ensures State() == t
    {
      sessions, points := t.sessions, t.points;
    }

    /** The row with the greatest sequence number of the session, if any. */
    method LatestPoint(k: Key) returns (latest: Option<Point>)
      requires Contiguous(State()) && k in sessions
      ensures latest == if sessions[k].pointCount == 0 then None else Some(points[(k, sessions[k].pointCount)])
    {
      var todo, best := points.Keys, 0;
      while todo != {}
        invariant todo <= points.Keys && (best > 0 ==> (k, best) in points)
        invariant forall n :: (k, n) in points && (k, n) !in todo ==> n <= best
        decreases todo
      {
        var x :| x in todo;
        todo := todo - {x};
        if x.0 == k && x.1 > best { best := x.1; }
      }
      assert sessions[k].pointCount > 0 ==> (k, sessions[k].pointCount) in points;
      return if best == 0 then None else Some(points[(k, best)]);
    }

    method Get(k: Key) returns (r: Result<TrackingSession>)
      requires Contiguous(State())
      ensures match r
              case Failure(e) => e == NotFound && k !in sessions
              case Success(s) => k in sessions && fresh(s) && s.State() == Loaded(State(), k) && s.events == []
    {
      if k !in sessions { return Failure(NotFound); }
      var latest := LatestPoint(k);
      var loaded := match latest case None => [] case Some(p) => [p];
      var session := new TrackingSession.Restore(SessionWith(k, sessions[k], loaded));
      return Success(session);
    }

    /** A guarded update of the row, then the pending points; any failure rolls back. */
    method Save(session: TrackingSession, expected: nat) returns (r: Result<()>)
      modifies this, session`persisted
      ensures match Saved(old(State()), old(session.State()), expected)
              case Failure(e) => r == Failure(e) && State() == old(State())
              case Success(t) => r == Success(()) && State() == t
    {
      var k := (session.org, session.id);
      if k !in sessions || sessions[k].version != expected { return Failure(ConcurrencyConflict); }
      var pending := Pending(session.State());
      if pending.Failure? { return Failure(pending.error); }
      ghost var before := points;
      var stored: map<(Key, nat), Point> := points;
      var i := 0;
      while i < |pending.value|
        invariant 0 <= i <= |pending.value| && points == before
        invariant Inserted(Tables(sessions, before), k, session.persisted, pending.value, i) == Success(Tables(sessions, stored))
      {
        var p := pending.value[i];
        var sequence: nat := session.persisted + i + 1;
        if (k, sequence) in stored || !Indexed(Tables(sessions, stored), k.0, p) {
          RefusedForGood(Tables(sessions, before), k, session.persisted, pending.value, i + 1, |pending.value|);
          return Failure(ConcurrencyConflict);
        }
        stored := stored[(k, sequence) := p];
        i := i + 1;
      }
      sessions := sessions[k := RowOf(session.State())];
      points := stored;
      if pending.value != [] { session.persisted := session.pointCount; }
      return Success(());
    }
  }

  /** Inserting the first n points one by one after the persisted ones, under the primary key and the
      unique index. */
  function Inserted(t: Tables, k: Key, persisted: nat, points: seq<Point>, n: nat): Result<Tables>
    requires n <= |points|
  {
    if n == 0 then Success(t)
    else
      match Inserted(t, k, persisted, points, n - 1)
      case Failure(e) => Failure(e)
      case Success(u) =>
        if (k, persisted + n) in u.points || !Indexed(u, k.0, points[n - 1]) then Failure(ConcurrencyConflict)
        else Success(u.(points := u.points[(k, persisted + n) := points[n - 1]]))
  }

  lemma {:induction false} RefusedForGood(t: Tables, k: Key, persisted: nat, points: seq<Point>, m: nat, n: nat)
    requires m <= n <= |points| && Inserted(t, k, persisted, points, m) == Failure(ConcurrencyConflict)
    ensures Inserted(t, k, persisted, points, n) == Failure(ConcurrencyConflict)
  {
    if m < n { RefusedForGood(t, k, persisted, points, m, n - 1); }
  }

  function Saved(t: Tables, s: Session, expected: nat): Result<Tables> {
    var k := s.Key();
    if k !in t.sessions || t.sessions[k].version != expected then Failure(ConcurrencyConflict)
    else
      match Pending(s)
      case Failure(e) => Failure(e)
      case Success(pending) =>
        match Inserted(t, k, s.persisted, pending, |pending|)
        case Failure(e) => Failure(e)
        case Success(t') => Success(t'.(sessions := t'.sessions[k := RowOf(s)]))
  }

  /** A save goes through exactly when the row still has the version it was read at, the session holds
      every point it has to write, and their places and events are free; else nothing is stored. */
  lemma SavesAreGuarded(t: Tables, s: Session, expected: nat)
    requires s.pointCount <= s.persisted + 1
    ensures var k := s.Key();
            Saved(t, s, expected).Success? <==>
            && k in t.sessions && t.sessions[k].version == expected
            && (s.pointCount > s.persisted ==>
                  && s.points != [] && (k, s.pointCount) !in t.points
                  && var p := s.points[|s.points| - 1];
                     p.eventId.Some? ==>
                       forall j: Key, n: nat :: (j, n) in t.points && j.0 == k.0 ==>
                         t.points[(j, n)].source != p.source || t.points[(j, n)].eventId != p.eventId)
  {
    hide Inserted;
    var k := s.Key();
    if s.pointCount > s.persisted {
      if s.points != [] {
        var p := s.points[|s.points| - 1];
        assert Pending(s).value == [p];
        InsertsOne(t, k, s.persisted, p);
        IndexedIsLiteral(t, k.0, p);
      }
    } else {
      InsertedNone(t, k, s.persisted);
    }
  }

  lemma InsertsOne(t: Tables, k: Key, persisted: nat, p: Point)
    ensures Inserted(t, k, persisted, [p], 1).Success? <==> (k, persisted + 1) !in t.points && Indexed(t, k.0, p)
  {
    hide Indexed;
    assert Inserted(t, k, persisted, [p], 0) == Success(t);
  }

  lemma IndexedIsLiteral(t: Tables, org: string, p: Point)
    ensures Indexed(t, org, p) <==>
            (p.eventId.Some? ==>
               forall j: Key, n: nat :: (j, n) in t.points && j.0 == org ==>
                 t.points[(j, n)].source != p.source || t.points[(j, n)].eventId != p.eventId)
  {
    if p.eventId.Some? {
      if Known(t, org, p.source, p.eventId.value) {
        var x :| x in t.points && x.0.0 == org && Matches(t.points[x], p.source, p.eventId.value);
        assert (x.0, x.1) in t.points;
      }
      if j: Key, n: nat :| (j, n) in t.points && j.0 == org && t.points[(j, n)].source == p.source && t.points[(j, n)].eventId == p.eventId {
        assert Matches(t.points[(j, n)], p.source, p.eventId.value);
      }
    }
  }

  /** One `record_location` transaction on the tables. */
  ghost function Record(t: Tables, k: Key, executor: string, fix: Fix, now: int): Result<Tables>
    requires Contiguous(t)
  {
    if k !in t.sessions then Failure(NotFound)
    else if t.sessions[k].executor != executor then Failure(InvalidTransition)
    else if fix.eventId.Some? && Known(t, k.0, fix.source, fix.eventId.value) then Success(t)
    else
      match Observe(Loaded(t, k), fix, now)
      case Failure(e) => Failure(e)
      case Success(y) => Saved(t, y.session, t.sessions[k].version)
  }

  lemma StampedKeepsEvent(s: Session, fix: Fix, now: int)
    ensures Stamped(s, fix, now).eventId == fix.eventId && Stamped(s, fix, now).source == fix.source
  {
  }

  /** A session with nothing to write has exactly the new point to write after an observation. */
  lemma ObservedPending(s: Session, fix: Fix, now: int)
    requires s.persisted == s.pointCount && Observe(s, fix, now).Success?
    ensures var y := Observe(s, fix, now).value;
            && y.session.Key() == s.Key() && y.session.persisted == s.persisted
            && (y.event.None? ==> y.session == s && Pending(s) == Success([]))
            && (y.event.Some? ==> y.session.pointCount == s.pointCount + 1 && Pending(y.session) == Success([Stamped(s, fix, now)]))
  {
    hide PointOk;
    hide HasEventId;
    hide Stamped;
    var y := Observe(s, fix, now).value;
    if y.event.Some? { assert Pending(y.session).value == [Stamped(s, fix, now)]; }
  }

  lemma InsertedNone(t: Tables, k: Key, persisted: nat)
    ensures Inserted(t, k, persisted, [], 0) == Success(t)
  {
  }

  lemma InsertedOne(t: Tables, k: Key, persisted: nat, p: Point)
    requires (k, persisted + 1) !in t.points && Indexed(t, k.0, p)
    ensures Inserted(t, k, persisted, [p], 1) == Success(t.(points := t.points[(k, persisted + 1) := p]))
  {
    hide Indexed;
    assert Inserted(t, k, persisted, [p], 0) == Success(t);
  }

  lemma AppendedRow(t: Tables, k: Key, p: Point, r: SessionRow)
    requires Contiguous(t) && k in t.sessions && r.pointCount == t.sessions[k].pointCount + 1
    ensures (k, r.pointCount) !in t.points
    ensures var t' := Tables(t.sessions[k := r], t.points[(k, r.pointCount) := p]);
            && Contiguous(t')
            && Rows(t', k) == Rows(t, k) + [p]
            && forall j :: j in t.sessions && j != k ==> Rows(t', j) == Rows(t, j)
  {
  }

  /** The transaction succeeds whenever the loaded session accepts the fix, and then
      stores exactly one more row after the last, or none for a repeated event. */
  lemma RecordAppends(t: Tables, k: Key, executor: string, fix: Fix, now: int)
    requires Contiguous(t) && k in t.sessions && t.sessions[k].executor == executor
    requires fix.eventId.Some? ==> !Known(t, k.0, fix.source, fix.eventId.value)
    requires Observe(Loaded(t, k), fix, now).Success?
    ensures Record(t, k, executor, fix, now).Success?
    ensures var s, t' := Loaded(t, k), Record(t, k, executor, fix, now).value;
            var y := Observe(s, fix, now).value;
            if y.event.None? then t' == t
            else
              && Contiguous(t') && t'.sessions == t.sessions[k := RowOf(y.session)]
              && Rows(t', k) == Rows(t, k) + [Stamped(s, fix, now)]
              && forall j :: j in t.sessions && j != k ==> Rows(t', j) == Rows(t, j)
  {
    hide Contiguous;
    hide Rows;
    hide Known;
    hide Observe;
    hide Stamped;
    hide Pending;
    hide Inserted;
    var s := Loaded(t, k);
    var y := Observe(s, fix, now).value;
    ObservedPending(s, fix, now);
    StampedKeepsEvent(s, fix, now);
    if y.event.None? {
      assert t.sessions[k := RowOf(s)] == t.sessions;
      InsertedNone(t, k, s.persisted);
    } else {
      AppendedRow(t, k, Stamped(s, fix, now), RowOf(y.session));
      InsertedOne(t, k, s.persisted, Stamped(s, fix, now));
    }
  }

  /** Every point of the stored history is at or after the one before it. */
  ghost predicate InOrder(t: Tables)
    requires Contiguous(t)
  {
    forall k :: k in t.sessions ==> Ordered(Rows(t, k))
  }

  lemma OrderedSnoc(points: seq<Point>, p: Point)
    requires Ordered(points) && (points != [] ==> points[|points| - 1].capturedAt <= p.capturedAt)
    ensures Ordered(points + [p])
  {
  }

  lemma StampedInOrder(s: Session, fix: Fix, now: int)
    ensures s.points != [] ==> s.points[|s.points| - 1].capturedAt <= Stamped(s, fix, now).capturedAt
  {
  }

  lemma HistoryGrows(t: Tables, t': Tables, k: Key, p: Point)
    requires Contiguous(t) && InOrder(t) && Contiguous(t') && k in t.sessions && t'.sessions.Keys == t.sessions.Keys
    requires Rows(t', k) == Rows(t, k) + [p]
    requires Rows(t, k) != [] ==> Rows(t, k)[|Rows(t, k)| - 1].capturedAt <= p.capturedAt
    requires forall j :: j in t.sessions && j != k ==> Rows(t', j) == Rows(t, j)
    ensures InOrder(t') && forall j :: j in t.sessions ==> Rows(t, j) <= Rows(t', j)
  {
    hide Ordered;
    hide Rows;
    hide Contiguous;
    OrderedSnoc(Rows(t, k), p);
  }

  lemma LastRow(t: Tables, k: Key)
    requires Contiguous(t) && k in t.sessions && t.sessions[k].pointCount > 0
    ensures Rows(t, k) != [] && Rows(t, k)[|Rows(t, k)| - 1] == t.points[(k, t.sessions[k].pointCount)]
  {
  }

  /** `record_location` keeps the rows contiguous and in order, only appends to the
      history of its own session, and leaves every other session alone. */
  lemma RecordKeepsHistory(t: Tables, k: Key, executor: string, fix: Fix, now: int)
    requires Contiguous(t) && InOrder(t) && Record(t, k, executor, fix, now).Success?
    ensures var t' := Record(t, k, executor, fix, now).value;
            && Contiguous(t') && InOrder(t') && t'.sessions.Keys == t.sessions.Keys
            && (forall j :: j in t.sessions ==> Rows(t, j) <= Rows(t', j))
  {
    hide Observe;
    hide Stamped;
    hide InOrder;
    hide Saved;
    hide Known;
    if !(fix.eventId.Some? && Known(t, k.0, fix.source, fix.eventId.value)) {
      RecordAppends(t, k, executor, fix, now);
      StampedInOrder(Loaded(t, k), fix, now);
      if Observe(Loaded(t, k), fix, now).value.event.Some? {
        if t.sessions[k].pointCount > 0 { LastRow(t, k); }
        HistoryGrows(t, Record(t, k, executor, fix, now).value, k, Stamped(Loaded(t, k), fix, now));
      }
    }
  }

  datatype Call = Call(key: Key, executor: string, fix: Fix, now: int)

  /** A run of calls; a failing call leaves the tables as they were. */
  ghost function Recorded(t: Tables, calls: seq<Call>): Tables
    requires Contiguous(t) && InOrder(t)
    ensures Contiguous(Recorded(t, calls)) && InOrder(Recorded(t, calls))
    ensures Recorded(t, calls).sessions.Keys == t.sessions.Keys
  {
    if calls == [] then t
    else
      var c, u := calls[|calls| - 1], Recorded(t, calls[..|calls| - 1]);
      match Record(u, c.key, c.executor, c.fix, c.now)
      case Failure(_) => u
      case Success(u') => RecordKeepsHistory(u, c.key, c.executor, c.fix, c.now); u'
  }

  /** After any run of calls on any sessions, the stored rows are numbered exactly
      1..point_count, the earlier history is a prefix of the later one, and capture
      times never fall over the whole history. */
  lemma {:induction false} RunsKeepFullHistory(t: Tables, calls: seq<Call>, k: Key)
    requires Contiguous(t) && InOrder(t) && k in t.sessions
    ensures var u := Recorded(t, calls);
            && (forall n :: (k, n) in u.points <==> 1 <= n <= u.sessions[k].pointCount)
            && Rows(t, k) <= Rows(u, k) && Ordered(Rows(u, k))
  {
    var u := Recorded(t, calls);
    assert Contiguous(u) && InOrder(u);
    if calls != [] {
      var c, before := calls[|calls| - 1], Recorded(t, calls[..|calls| - 1]);
      RunsKeepFullHistory(t, calls[..|calls| - 1], k);
      if Record(before, c.key, c.executor, c.fix, c.now).Success? {
        RecordKeepsHistory(before, c.key, c.executor, c.fix, c.now);
        assert Rows(before, k) <= Rows(u, k);
      }
    }
  }

  /** The loaded window and the full load stamp a fix alike, and both accept it. */
  lemma WindowStampsAlike(t: Tables, k: Key, fix: Fix, now: int)
    requires Contiguous(t) && k in t.sessions
    ensures Stamped(Loaded(t, k), fix, now) == Stamped(Full(t, k), fix, now)
    ensures forall e :: HasEventId(Loaded(t, k).points, e) ==> HasEventId(Rows(t, k), e)
  {
    var s, rows := Loaded(t, k), Rows(t, k);
    if rows != [] {
      assert s.points == [rows[|rows| - 1]];
      forall e | HasEventId(s.points, e) ensures HasEventId(rows, e) {
        assert rows[|rows| - 1].eventId == Some(e);
      }
    }
  }

  /** The windowed transaction stores what a fully loaded session would hold, exactly
      unless an older point of the session carries the same event id under another source. */
  lemma WindowRefinesFullLoad(t: Tables, k: Key, executor: string, fix: Fix, now: int)
    requires Contiguous(t) && k in t.sessions && t.sessions[k].executor == executor
    requires fix.eventId.Some? ==> !Known(t, k.0, fix.source, fix.eventId.value)
    requires Observe(Loaded(t, k), fix, now).Success?
    ensures Record(t, k, executor, fix, now).Success? && Contiguous(Record(t, k, executor, fix, now).value)
    ensures k in Record(t, k, executor, fix, now).value.sessions
    ensures var full, stored := Observe(Full(t, k), fix, now), Rows(Record(t, k, executor, fix, now).value, k);
            (full.Success? && full.value.session.points == stored) <==>
            !(fix.eventId.Some? && HasEventId(Rows(t, k), fix.eventId.value) && !HasEventId(Loaded(t, k).points, fix.eventId.value))
  {
    hide PointOk;
    hide Stamped;
    hide Record;
    hide HasEventId;
    hide Contiguous;
    hide Rows;
    RecordAppends(t, k, executor, fix, now);
    WindowStampsAlike(t, k, fix, now);
    LoadedAsFull(t, k);
    StampedInOrder(Full(t, k), fix, now);
    StampedKeepsEvent(Full(t, k), fix, now);
  }

  /** The window and the full load differ only in their points; the window's are among the stored ones. */
  lemma LoadedAsFull(t: Tables, k: Key)
    requires Contiguous(t) && k in t.sessions
    ensures Full(t, k) == Loaded(t, k).(points := Rows(t, k))
    ensures Rows(t, k) == [] <==> Loaded(t, k).points == []
    ensures Rows(t, k) != [] ==> Loaded(t, k).points == [Rows(t, k)[|Rows(t, k)| - 1]]
  {
  }
}
