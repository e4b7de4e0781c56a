/** The tracking session aggregate: what its commands decide, and the mutable
    class that carries them out. A session may be loaded with all of its points
    or with only the latest one; `persisted` says how many points are stored. */
module Tracking {
  import opened Prelude
  import opened Domain

  /** The parameters of a new session; tokens are drawn by the caller. */
  datatype SessionStart = SessionStart(id: string, publicToken: string, locationToken: string)

  /** A reported position before the service stamps it. */
  datatype Fix = Fix(
    latitude: real,
    longitude: real,
    source: LocationSource,
    captured: Option<int>,
    accuracy: Option<real>,
    eventId: Option<string>)

  datatype SessionDecision = SessionDecision(session: Session, event: Option<Payload>)

  predicate TokenOk(token: string) {
    |token| >= 43 && !Blank(token)
  }

  predicate PointOk(p: Point) {
    && -90.0 <= p.latitude <= 90.0
    && -180.0 <= p.longitude <= 180.0
    && (p.accuracy.Some? ==> p.accuracy.value >= 0.0)
    && (p.eventId.Some? ==> !Blank(p.eventId.value))
  }

  predicate HasEventId(points: seq<Point>, eventId: string) {
    exists i :: 0 <= i < |points| && points[i].eventId == Some(eventId)
  }

  function Advanced(s: Session, p: Payload): Result<SessionDecision> {
    Success(SessionDecision(s.(version := s.version + 1), Some(p)))
  }

  function Begin(order: Key, executor: string, start: SessionStart): Result<SessionDecision> {
    if start.id == "" || order.0 == "" || order.1 == "" || executor == "" then Failure(ValueError)
    else if !TokenOk(start.publicToken) || !TokenOk(start.locationToken) then Failure(ValueError)
    else if start.publicToken == start.locationToken then Failure(ValueError)
    else
      Advanced(Session(order.0, start.id, order.1, executor, Some(start.publicToken), Some(start.locationToken),
                       Active, [], 0, 0, 0), TrackingStarted)
  }

  function Extend(s: Session, p: Point): Result<SessionDecision> {
    if p.eventId.Some? && HasEventId(s.points, p.eventId.value) then Success(SessionDecision(s, None))
    else if s.status != Active then Failure(InvalidTransition)
    else if s.points != [] && p.capturedAt < s.points[|s.points| - 1].capturedAt then Failure(ValueError)
    else
      Advanced(s.(points := s.points + [p], pointCount := s.pointCount + 1),
               PointRecorded(p.capturedAt, p.source, p.eventId))
  }

  /** Closes an active session for good; `reason` is present when it is aborted. */
  function Close(s: Session, reason: Option<string>): Result<SessionDecision> {
    if s.status != Active then Failure(InvalidTransition)
    else
      Advanced(s.(status := if reason.Some? then Aborted else Finished, publicToken := None, locationToken := None),
               match reason case None => TrackingCompleted(s.pointCount) case Some(r) => TrackingCancelled(r))
  }

  /** The point the service builds from a fix: a capture time that would run
      backwards is replaced by the later of `now` and the latest capture. */
  function Stamped(s: Session, fix: Fix, now: int): Point {
    var observed := if fix.captured.Some? then fix.captured.value else now;
    var latest := if s.points == [] then observed else s.points[|s.points| - 1].capturedAt;
    var captured := if observed >= latest then observed else if now >= latest then now else latest;
    Point(fix.latitude, fix.longitude, captured, now, fix.source, fix.accuracy, fix.eventId)
  }

  function Observe(s: Session, fix: Fix, now: int): Result<SessionDecision> {
    var p := Stamped(s, fix, now);
    if !PointOk(p) then Failure(ValueError) else Extend(s, p)
  }

  /** A position on Earth with a plausible accuracy and, if it has one, a real event id. */
  predicate OnEarth(fix: Fix) {
    && -90.0 <= fix.latitude && fix.latitude <= 90.0 && -180.0 <= fix.longitude && fix.longitude <= 180.0
    && (fix.accuracy.Some? ==> fix.accuracy.value >= 0.0) && (fix.eventId.Some? ==> !Blank(fix.eventId.value))
  }

  lemma OnEarthIsWellFormed(s: Session, fix: Fix, now: int)
    ensures PointOk(Stamped(s, fix, now)) <==> OnEarth(fix)
  {
  }

  /** A fix is stored as it was sent, and at the time it was captured; only if that time lies before
      the latest point is it stored at the later of its arrival and that point. */
  lemma FixesAreStoredAsSent(s: Session, fix: Fix, now: int)
    ensures var p := Stamped(s, fix, now);
            var observed := if fix.captured.Some? then fix.captured.value else now;
            && p.latitude == fix.latitude && p.longitude == fix.longitude && p.accuracy == fix.accuracy
            && p.source == fix.source && p.eventId == fix.eventId && p.ingestedAt == now
            && if s.points == [] || s.points[|s.points| - 1].capturedAt <= observed then p.capturedAt == observed
               else var latest := s.points[|s.points| - 1].capturedAt;
                    p.capturedAt >= now && p.capturedAt >= latest && (p.capturedAt == now || p.capturedAt == latest)
  {
  }

  /** The clamp makes the ordering error of `Extend` unreachable: a well-formed
      fix is refused exactly when the session is closed and the fix is new to it. */
  lemma ClampedFixesAreInOrder(s: Session, fix: Fix, now: int)
    requires PointOk(Stamped(s, fix, now))
    ensures Observe(s, fix, now).Failure? <==>
            s.status != Active && (fix.eventId.Some? ==> !HasEventId(s.points, fix.eventId.value))
    ensures Observe(s, fix, now).Failure? ==> Observe(s, fix, now).error == InvalidTransition
  {
  }

  /** The points a save still has to write. */
  function Pending(s: Session): Result<seq<Point>> {
    if s.pointCount - s.persisted > |s.points| then Failure(ValueError)
    else if s.pointCount <= s.persisted then Success([])
    else
      var n := s.pointCount - s.persisted;
      Success(seq(n, i requires 0 <= i < n => s.points[|s.points| - n + i]))
  }

  function SessionEvent(s: Session, p: Payload): Event {
    Event(SessionAggregate, s.Key(), s.version, p)
  }

  function Noted(d: SessionDecision): seq<Event> {
    match d.event case None => [] case Some(p) => [SessionEvent(d.session, p)]
  }

  ghost predicate Ordered(points: seq<Point>) {
    forall i, j :: 0 <= i < j < |points| ==> points[i].capturedAt <= points[j].capturedAt
  }

  /** What every reachable fully loaded session satisfies. */
  ghost predicate SoundSession(s: Session) {
    && s.org != "" && s.id != "" && s.orderId != "" && s.executor != ""
    && s.pointCount == |s.points| && s.persisted == 0
    && Ordered(s.points)
    && s.version == s.pointCount + (if s.status == Active then 1 else 2)
    && (s.status == Active ==>
          && s.publicToken.Some? && TokenOk(s.publicToken.value)
          && s.locationToken.Some? && TokenOk(s.locationToken.value)
          && s.publicToken != s.locationToken)
    && (s.status != Active ==> s.publicToken.None? && s.locationToken.None?)
  }

  /** A session's step keeps it sound and its identity fixed, only appends points,
      and moves the version by exactly the number of events. */
  ghost predicate Steps(s: Session, y: SessionDecision) {
    var s' := y.session;
    && SoundSession(s') && s'.Key() == s.Key() && s'.orderId == s.orderId && s'.executor == s.executor
    && s'.version == s.version + |Noted(y)|
    && (y.event.None? ==> s' == s)
    && s.points <= s'.points
  }

  lemma ObserveSteps(s: Session, fix: Fix, now: int)
    requires SoundSession(s) && Observe(s, fix, now).Success?
    ensures Steps(s, Observe(s, fix, now).value)
    ensures Observe(s, fix, now).value.session.status == s.status
  {
  }

  lemma CloseSteps(s: Session, reason: Option<string>)
    requires SoundSession(s) && Close(s, reason).Success?
    ensures Steps(s, Close(s, reason).value)
  {
  }

  class TrackingSession {
    const org: string
    const id: string
    const orderId: string
    const executor: string
    var publicToken: Option<string>
    var locationToken: Option<string>
    var status: SessionStatus
    var points: seq<Point>
    var pointCount: nat
    var persisted: nat
    var version: nat
    var events: seq<Event>

    function State(): Session
      reads this
    {
      Session(org, id, orderId, executor, publicToken, locationToken, status, points, pointCount, persisted, version)
    }

    ghost predicate Obeyed(decided: Result<SessionDecision>, r: Result<()>, before: Session, buffered: seq<Event>)
      reads this
    {
      match decided
      case Failure(e) => r == Failure(e) && State() == before && events == buffered
      case Success(d) => r == Success(()) && State() == d.session && events == buffered + Noted(d)
    }

    constructor Restore(s: Session)
      ensures State() == s && events == []
    {
      org, id, orderId, executor := s.org, s.id, s.orderId, s.executor;
      publicToken, locationToken, status := s.publicToken, s.locationToken, s.status;
      points, pointCount, persisted, version, events := s.points, s.pointCount, s.persisted, s.version, [];
    }

    static method Start(order: Key, executor: string, start: SessionStart) returns (r: Result<TrackingSession>)
      ensures match Begin(order, executor, start)
              case Failure(e) => r == Failure(e)
              case Success(d) => r.Success? && fresh(r.value) && r.value.State() == d.session && r.value.events == Noted(d)
    {
      if start.id == "" || order.0 == "" || order.1 == "" || executor == "" { return Failure(ValueError); }
      if |start.publicToken| < 43 || Blank(start.publicToken) { return Failure(ValueError); }
      if |start.locationToken| < 43 || Blank(start.locationToken) { return Failure(ValueError); }
      if start.locationToken == start.publicToken { return Failure(ValueError); }
      var session := new TrackingSession.Restore(
        Session(order.0, start.id, order.1, executor, Some(start.publicToken), Some(start.locationToken), Active, [], 0, 0, 0));
      session.Record(TrackingStarted);
      return Success(session);
    }

    method Record(p: Payload)
      modifies this`version, this`events
      ensures version == old(version) + 1
      ensures events == old(events) + [SessionEvent(State(), p)]
    {
      version := version + 1;
      events := events + [Event(SessionAggregate, (org, id), version, p)];
    }

    method AddPoint(p: Point) returns (r: Result<()>)
      modifies this
      ensures Obeyed(Extend(old(State()), p), r, old(State()), old(events))
    {
      if p.eventId.Some? && exists i :: 0 <= i < |points| && points[i].eventId == p.eventId { return Success(()); }
      if status != Active { return Failure(InvalidTransition); }
      if points != [] && p.capturedAt < points[|points| - 1].capturedAt { return Failure(ValueError); }
      points := points + [p];
      pointCount := pointCount + 1;
      Record(PointRecorded(p.capturedAt, p.source, p.eventId));
      return Success(());
    }

    method Complete() returns (r: Result<()>)
      modifies this
      ensures Obeyed(Close(old(State()), None), r, old(State()), old(events))
    {
      if status != Active { return Failure(InvalidTransition); }
      status := Finished;
      publicToken := None;
      locationToken := None;
      Record(TrackingCompleted(pointCount));
      return Success(());
    }

    method Cancel(reason: string) returns (r: Result<()>)
      modifies this
      ensures Obeyed(Close(old(State()), Some(reason)), r, old(State()), old(events))
    {
      if status != Active { return Failure(InvalidTransition); }
      status := Aborted;
      publicToken := None;
      locationToken := None;
      Record(TrackingCancelled(reason));
      return Success(());
    }

    method PullEvents() returns (pulled: seq<Event>)
      modifies this`events
      ensures pulled == old(events) && events == []
    {
      pulled := events;
      events := [];
    }
  }
}
