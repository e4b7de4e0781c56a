/** Location transactions over whole runs: windowed against fully loaded sessions, the
    uniqueness of source events, and transactions that overlap on different sessions. */
module TrackingRuns {
  import opened Prelude
  import opened Domain
  import opened Tracking
  import opened TrackingRows

  function After(t: Tables, r: Result<Tables>): Tables {
    if r.Success? then r.value else t
  }

  ghost function Step(t: Tables, c: Call): Tables
    requires Contiguous(t)
  {
    After(t, Record(t, c.key, c.executor, c.fix, c.now))
  }

  ghost predicate Repeats(t: Tables, c: Call) {
    c.fix.eventId.Some? && Known(t, c.key.0, c.fix.source, c.fix.eventId.value)
  }

  // A full load -------------------------------------------------------------------------------

  /** The same transaction on a session loaded with its whole history. */
  ghost function FullStep(t: Tables, c: Call): Tables
    requires Contiguous(t)
  {
    if c.key !in t.sessions || t.sessions[c.key].executor != c.executor || Repeats(t, c) then t
    else
      match Observe(Full(t, c.key), c.fix, c.now)
      case Failure(_) => t
      case Success(y) => After(t, Saved(t, y.session, t.sessions[c.key].version))
  }

  /** The session is open and an older point, but not the latest, carries the call's event id
      under another source. */
  ghost predicate Gap(t: Tables, c: Call)
    requires Contiguous(t)
  {
    && c.key in t.sessions && t.sessions[c.key].executor == c.executor
    && c.fix.eventId.Some? && !Repeats(t, c)
    && Observe(Loaded(t, c.key), c.fix, c.now).Success?
    && HasEventId(Rows(t, c.key), c.fix.eventId.value) && !HasEventId(Loaded(t, c.key).points, c.fix.eventId.value)
  }

  /** Observing with the whole history differs from observing with the latest point only in a
      gap or when the session is closed, and then it changes nothing. */
  lemma ObservedAlike(t: Tables, k: Key, fix: Fix, now: int)
    requires Contiguous(t) && k in t.sessions
    ensures var window, full := Observe(Loaded(t, k), fix, now), Observe(Full(t, k), fix, now);
            if fix.eventId.Some? && HasEventId(Rows(t, k), fix.eventId.value) then
              full.Failure? || full.value == SessionDecision(Full(t, k), None)
            else
              && (full.Success? <==> window.Success?)
              && (full.Success? ==>
                    && full.value.event.Some? && window.value.event.Some?
                    && full.value.session == window.value.session.(points := Rows(t, k) + [Stamped(Loaded(t, k), fix, now)])
                    && window.value.session.points == Loaded(t, k).points + [Stamped(Loaded(t, k), fix, now)])
  {
    hide PointOk;
    hide Stamped;
    hide HasEventId;
    hide Contiguous;
    hide Rows;
    hide Loaded;
    hide Full;
    WindowStampsAlike(t, k, fix, now);
    LoadedAsFull(t, k);
    StampedKeepsEvent(Loaded(t, k), fix, now);
    HasInNone(t, k, fix);
  }

  lemma HasInNone(t: Tables, k: Key, fix: Fix)
    requires Contiguous(t) && k in t.sessions
    ensures fix.eventId.Some? && !HasEventId(Rows(t, k), fix.eventId.value) ==> !HasEventId(Loaded(t, k).points, fix.eventId.value)
  {
    WindowStampsAlike(t, k, fix, 0);
  }

  lemma SavedUnchanged(t: Tables, k: Key, s: Session)
    requires Contiguous(t) && k in t.sessions && (s == Full(t, k) || s == Loaded(t, k))
    ensures Saved(t, s, t.sessions[k].version) == Success(t)
  {
    assert Pending(s) == Success([]);
    assert t.sessions[k := RowOf(s)] == t.sessions;
  }

  lemma SavedAlike(t: Tables, s: Session, full: seq<Point>, p: Point, expected: nat)
    requires s.pointCount == s.persisted + 1
    requires s.points != [] && s.points[|s.points| - 1] == p
    ensures var whole := s.(points := full + [p]); Saved(t, whole, expected) == Saved(t, s, expected)
  {
    assert Pending(s).value == [p];
    assert Pending(s.(points := full + [p])).value == [p];
  }

  /** One transaction stores what a fully loaded session would store if and only if the call
      does not fall into a gap. */
  lemma StepsAgree(t: Tables, c: Call)
    requires Contiguous(t)
    ensures Step(t, c) == FullStep(t, c) <==> !Gap(t, c)
  {
    hide Observe;
    hide Contiguous;
    hide Rows;
    hide Loaded;
    hide Full;
    hide Known;
    hide HasEventId;
    hide Saved;
    hide Stamped;
    var k := c.key;
    if k in t.sessions && t.sessions[k].executor == c.executor && !Repeats(t, c) {
      ObservedAlike(t, k, c.fix, c.now);
      SavedUnchanged(t, k, Full(t, k));
      var window := Observe(Loaded(t, k), c.fix, c.now);
      if window.Success? {
        RecordAppends(t, k, c.executor, c.fix, c.now);
        if window.value.event.None? {
          NothingNew(t, k, c.fix, c.now);
        } else {
          ObservedCounts(t, k, c.fix, c.now);
          AppendedDiffers(t, Step(t, c), k);
          if Observe(Full(t, k), c.fix, c.now).Success? && Observe(Full(t, k), c.fix, c.now).value.event.Some? {
            SavedAlike(t, window.value.session, Rows(t, k), Stamped(Loaded(t, k), c.fix, c.now), t.sessions[k].version);
          }
        }
      }
    }
  }

  lemma NothingNew(t: Tables, k: Key, fix: Fix, now: int)
    requires Contiguous(t) && k in t.sessions
    requires Observe(Loaded(t, k), fix, now).Success? && Observe(Loaded(t, k), fix, now).value.event.None?
    ensures fix.eventId.Some? && HasEventId(Loaded(t, k).points, fix.eventId.value)
    ensures HasEventId(Rows(t, k), fix.eventId.value)
  {
    WindowStampsAlike(t, k, fix, now);
  }

  lemma ObservedCounts(t: Tables, k: Key, fix: Fix, now: int)
    requires Contiguous(t) && k in t.sessions
    requires Observe(Loaded(t, k), fix, now).Success? && Observe(Loaded(t, k), fix, now).value.event.Some?
    ensures var s := Observe(Loaded(t, k), fix, now).value.session;
            s.pointCount == s.persisted + 1 && s.points == Loaded(t, k).points + [Stamped(Loaded(t, k), fix, now)]
    ensures fix.eventId.Some? ==> !HasEventId(Loaded(t, k).points, fix.eventId.value)
  {
    hide PointOk;
    hide HasEventId;
  }

  lemma AppendedDiffers(t: Tables, t': Tables, k: Key)
    requires Contiguous(t) && Contiguous(t') && k in t.sessions && k in t'.sessions && |Rows(t', k)| == |Rows(t, k)| + 1
    ensures t != t'
  {
  }

  /** The organization holds a point with this event id from this source. */
  ghost predicate Heard(t: Tables, org: string, source: LocationSource, eventId: string) {
    exists k: Key, n: nat :: (k, n) in t.points && k.0 == org && t.points[(k, n)].source == source && t.points[(k, n)].eventId == Some(eventId)
  }

  lemma KnownIsHeard(t: Tables, org: string, source: LocationSource, eventId: string)
    ensures Known(t, org, source, eventId) <==> Heard(t, org, source, eventId)
  {
    if Known(t, org, source, eventId) {
      var x :| x in t.points && x.0.0 == org && Matches(t.points[x], source, eventId);
      assert (x.0, x.1) in t.points;
    }
    if Heard(t, org, source, eventId) {
      var k: Key, n: nat :| (k, n) in t.points && k.0 == org && t.points[(k, n)].source == source && t.points[(k, n)].eventId == Some(eventId);
      assert Matches(t.points[(k, n)], source, eventId);
    }
  }

  /** A location changes the tables exactly when the session's executor sends a position on Earth
      while the session is active, and its event, if it names one, is new to the organization under
      this source and is not that of the latest point. */
  lemma LocationsAreStoredExactly(t: Tables, c: Call)
    requires Contiguous(t)
    ensures var k, n := c.key, if c.key in t.sessions then t.sessions[c.key].pointCount else 0;
            Step(t, c) != t <==>
            && k in t.sessions && t.sessions[k].executor == c.executor && t.sessions[k].status == Active && OnEarth(c.fix)
            && (c.fix.eventId.Some? ==>
                  && !Heard(t, k.0, c.fix.source, c.fix.eventId.value)
                  && (n > 0 ==> (k, n) in t.points && t.points[(k, n)].eventId != c.fix.eventId))
  {
    hide Contiguous;
    hide Rows;
    hide Known;
    hide Heard;
    hide Stamped;
    hide PointOk;
    hide OnEarth;
    hide Saved;
    var k := c.key;
    if c.fix.eventId.Some? { KnownIsHeard(t, k.0, c.fix.source, c.fix.eventId.value); }
    if k in t.sessions {
      if t.sessions[k].pointCount > 0 { LatestIsStored(t, k); }
      OnEarthIsWellFormed(Loaded(t, k), c.fix, c.now);
      ObservedExactly(t, k, c.fix, c.now);
      hide Observe;
      hide Loaded;
      if t.sessions[k].executor == c.executor && !Repeats(t, c) && Observe(Loaded(t, k), c.fix, c.now).Success? {
        RecordAppends(t, k, c.executor, c.fix, c.now);
        if Observe(Loaded(t, k), c.fix, c.now).value.event.Some? { AppendedDiffers(t, Step(t, c), k); }
      }
    }
  }

  lemma LatestIsStored(t: Tables, k: Key)
    requires Contiguous(t) && k in t.sessions && t.sessions[k].pointCount > 0
    ensures (k, t.sessions[k].pointCount) in t.points
  {
  }

  /** What the windowed session makes of a fix. */
  lemma ObservedExactly(t: Tables, k: Key, fix: Fix, now: int)
    requires Contiguous(t) && k in t.sessions
    ensures var n, r := t.sessions[k].pointCount, Observe(Loaded(t, k), fix, now);
            (r.Success? && r.value.event.Some?) <==>
            && PointOk(Stamped(Loaded(t, k), fix, now)) && t.sessions[k].status == Active
            && (fix.eventId.Some? && n > 0 ==> (k, n) in t.points && t.points[(k, n)].eventId != fix.eventId)
  {
    hide PointOk;
    StampedKeepsEvent(Loaded(t, k), fix, now);
    if PointOk(Stamped(Loaded(t, k), fix, now)) { ClampedFixesAreInOrder(Loaded(t, k), fix, now); }
  }

  // Operations -----------------------------------------------------------------------------------

  /** What happens to the sessions: a location, the session of a departure, and the end of a session. */
  datatype Op =
    | Locating(call: Call)
    | Opening(order: Key, executor: string, start: SessionStart)
    | Closing(key: Key, reason: Option<string>)

  /** Two sessions the unique indexes keep apart: one active session of an order, and no token twice. */
  predicate Clash(j: Key, x: SessionRow, k: Key, y: SessionRow) {
    || (j.0 == k.0 && x.orderId == y.orderId && x.status == Active && y.status == Active)
    || (x.publicToken.Some? && x.publicToken == y.publicToken)
    || (x.locationToken.Some? && x.locationToken == y.locationToken)
  }

  /** The insertion of a new session under the primary key and the unique indexes. */
  ghost function Opened(t: Tables, s: Session): Tables {
    if s.Key() in t.sessions || (exists j :: j in t.sessions && Clash(j, t.sessions[j], s.Key(), RowOf(s))) then t
    else t.(sessions := t.sessions[s.Key() := RowOf(s)])
  }

  ghost function OpStep(t: Tables, op: Op): Tables
    requires Contiguous(t)
  {
    match op
    case Locating(c) => Step(t, c)
    case Opening(order, who, start) => (match Begin(order, who, start) case Failure(_) => t case Success(y) => Opened(t, y.session))
    case Closing(k, reason) =>
      if k !in t.sessions then t
      else
        match Close(Loaded(t, k), reason)
        case Failure(_) => t
        case Success(y) => After(t, Saved(t, y.session, t.sessions[k].version))
  }

  /** The same operation on sessions loaded with their whole history. */
  ghost function FullOpStep(t: Tables, op: Op): Tables
    requires Contiguous(t)
  {
    match op
    case Locating(c) => FullStep(t, c)
    case Opening(_, _, _) => OpStep(t, op)
    case Closing(k, reason) =>
      if k !in t.sessions then t
      else
        match Close(Full(t, k), reason)
        case Failure(_) => t
        case Success(y) => After(t, Saved(t, y.session, t.sessions[k].version))
  }

  ghost predicate OpGap(t: Tables, op: Op)
    requires Contiguous(t)
  {
    op.Locating? && Gap(t, op.call)
  }

  /** The row a closing leaves: its points stand. */
  lemma ClosedRow(t: Tables, k: Key, s: Session, reason: Option<string>)
    requires Contiguous(t) && k in t.sessions && (s == Loaded(t, k) || s == Full(t, k)) && Close(s, reason).Success?
    ensures var s' := Close(s, reason).value.session;
            && Saved(t, s', t.sessions[k].version) == Success(t.(sessions := t.sessions[k := RowOf(s')]))
            && s'.pointCount == t.sessions[k].pointCount
            && RowOf(s') == RowOf(Close(Loaded(t, k), reason).value.session)
  {
    assert Pending(Close(s, reason).value.session) == Success([]);
  }

  lemma ClosingAlike(t: Tables, k: Key, reason: Option<string>)
    requires Contiguous(t)
    ensures OpStep(t, Closing(k, reason)) == FullOpStep(t, Closing(k, reason))
  {
    hide Saved;
    hide Contiguous;
    if k in t.sessions && Close(Loaded(t, k), reason).Success? {
      ClosedRow(t, k, Loaded(t, k), reason);
      ClosedRow(t, k, Full(t, k), reason);
    }
  }

  /** One operation goes where a full load would go if and only if it does not fall into a gap. */
  lemma OpStepsAgree(t: Tables, op: Op)
    requires Contiguous(t)
    ensures OpStep(t, op) == FullOpStep(t, op) <==> !OpGap(t, op)
  {
    hide Gap;
    hide Step;
    hide FullStep;
    match op {
      case Locating(c) => StepsAgree(t, c);
      case Opening(_, _, _) =>
      case Closing(k, reason) => ClosingAlike(t, k, reason);
    }
  }

  /** What every operation keeps: contiguous ordered histories, only appended to, of sessions that stay. */
  ghost predicate Onward(t: Tables, t': Tables)
    requires Contiguous(t)
  {
    && Contiguous(t') && InOrder(t') && t.sessions.Keys <= t'.sessions.Keys
    && forall k :: k in t.sessions ==> Rows(t, k) <= Rows(t', k)
  }

  lemma RowsOnlyMatter(t: Tables, t': Tables)
    requires Contiguous(t) && InOrder(t) && t'.points == t.points && t.sessions.Keys <= t'.sessions.Keys
    requires forall k :: k in t.sessions ==> t'.sessions[k].pointCount == t.sessions[k].pointCount
    requires forall k :: k in t'.sessions && k !in t.sessions ==> t'.sessions[k].pointCount == 0
    ensures Onward(t, t')
  {
    assert Contiguous(t') by {
      forall k, n | k in t'.sessions ensures (k, n) in t'.points <==> 1 <= n <= t'.sessions[k].pointCount {
        assert (k, n) in t.points ==> (k, n).0 in t.sessions;
      }
    }
    forall k | k in t'.sessions ensures Ordered(Rows(t', k)) && (k in t.sessions ==> Rows(t', k) == Rows(t, k)) {
      if k in t.sessions { assert Rows(t', k) == Rows(t, k); }
    }
  }

  lemma Stays(t: Tables)
    requires Contiguous(t) && InOrder(t)
    ensures Onward(t, t)
  {
  }

  lemma StepKeeps(t: Tables, c: Call)
    requires Contiguous(t) && InOrder(t)
    ensures Onward(t, Step(t, c))
  {
    hide Contiguous;
    hide InOrder;
    hide Record;
    if Record(t, c.key, c.executor, c.fix, c.now).Success? {
      RecordKeepsHistory(t, c.key, c.executor, c.fix, c.now);
    }
  }

  lemma OpStepKeeps(t: Tables, op: Op)
    requires Contiguous(t) && InOrder(t)
    ensures Onward(t, OpStep(t, op))
  {
    hide Onward;
    hide Contiguous;
    hide InOrder;
    hide Step;
    hide Saved;
    hide Begin;
    Stays(t);
    match op {
      case Locating(c) => StepKeeps(t, c);
      case Opening(order, who, start) =>
        if Begin(order, who, start).Success? {
          JustBegun(order, who, start);
          RowsOnlyMatter(t, Opened(t, Begin(order, who, start).value.session));
        }
      case Closing(k, reason) =>
        if k in t.sessions && Close(Loaded(t, k), reason).Success? {
          ClosedRow(t, k, Loaded(t, k), reason);
          RowsOnlyMatter(t, OpStep(t, op));
        }
    }
  }

  lemma FullOpStepKeeps(t: Tables, op: Op)
    requires Contiguous(t) && InOrder(t)
    ensures Onward(t, FullOpStep(t, op))
  {
    hide Onward;
    hide Contiguous;
    hide InOrder;
    hide OpStep;
    hide FullStep;
    hide Gap;
    OpStepsAgree(t, op);
    OpStepKeeps(t, op);
    Stays(t);
    if OpGap(t, op) { GapChangesNothing(t, op.call); }
  }

  lemma JustBegun(order: Key, executor: string, start: SessionStart)
    requires Begin(order, executor, start).Success?
    ensures var s := Begin(order, executor, start).value.session;
            s.Key() == (order.0, start.id) && s.executor == executor && s.status == Active && s.pointCount == 0
  {
    hide TokenOk;
  }

  // Whole runs -----------------------------------------------------------------------------------

  /** Operations one after another on windowed sessions. */
  ghost function Did(t: Tables, ops: seq<Op>): Tables
    requires Contiguous(t) && InOrder(t)
    ensures Contiguous(Did(t, ops)) && InOrder(Did(t, ops))
  {
    if ops == [] then t
    else
      var u, op := Did(t, ops[..|ops| - 1]), ops[|ops| - 1];
      OpStepKeeps(u, op);
      OpStep(u, op)
  }

  /** The same operations on sessions that are always loaded with their whole history. */
  ghost function FullDid(t: Tables, ops: seq<Op>): Tables
    requires Contiguous(t) && InOrder(t)
    ensures Contiguous(FullDid(t, ops)) && InOrder(FullDid(t, ops))
  {
    if ops == [] then t
    else
      var u, op := FullDid(t, ops[..|ops| - 1]), ops[|ops| - 1];
      FullOpStepKeeps(u, op);
      FullOpStep(u, op)
  }

  ghost predicate AgreeAt(t: Tables, ops: seq<Op>, n: nat)
    requires Contiguous(t) && InOrder(t) && n <= |ops|
  {
    Did(t, ops[..n]) == FullDid(t, ops[..n])
  }

  ghost predicate GapAt(t: Tables, ops: seq<Op>, n: nat)
    requires Contiguous(t) && InOrder(t) && n < |ops|
  {
    OpGap(Did(t, ops[..n]), ops[n])
  }

  lemma DidSnoc(t: Tables, ops: seq<Op>, n: nat)
    requires Contiguous(t) && InOrder(t) && n < |ops|
    ensures Did(t, ops[..n + 1]) == OpStep(Did(t, ops[..n]), ops[n])
    ensures FullDid(t, ops[..n + 1]) == FullOpStep(FullDid(t, ops[..n]), ops[n])
  {
    hide OpStep;
    hide FullOpStep;
    assert ops[..n + 1][..n] == ops[..n];
  }

  /** Two runs that agree go on agreeing exactly when the next operation avoids the gap. */
  lemma AgreementGoesOn(t: Tables, ops: seq<Op>, n: nat)
    requires Contiguous(t) && InOrder(t) && n < |ops| && AgreeAt(t, ops, n)
    ensures AgreeAt(t, ops, n + 1) <==> !GapAt(t, ops, n)
  {
    hide OpStep;
    hide FullOpStep;
    hide OpGap;
    hide Did;
    hide FullDid;
    DidSnoc(t, ops, n);
    OpStepsAgree(Did(t, ops[..n]), ops[n]);
  }

  lemma {:induction false} AgreeUpTo(t: Tables, ops: seq<Op>, n: nat)
    requires Contiguous(t) && InOrder(t) && n <= |ops| && forall m :: 0 <= m < n ==> !GapAt(t, ops, m)
    ensures AgreeAt(t, ops, n)
  {
    hide GapAt;
    if n > 0 {
      AgreeUpTo(t, ops, n - 1);
      AgreementGoesOn(t, ops, n - 1);
    } else {
      assert ops[..0] == [];
    }
  }

  /** A run of sessions loaded with their latest point only stores, at every moment, what the run
      of fully loaded sessions stores, if and only if none of its operations falls into a gap. */
  lemma RunsAgree(t: Tables, ops: seq<Op>)
    requires Contiguous(t) && InOrder(t)
    ensures (forall n :: 0 <= n <= |ops| ==> AgreeAt(t, ops, n)) <==> (forall n :: 0 <= n < |ops| ==> !GapAt(t, ops, n))
  {
    hide AgreeAt;
    hide GapAt;
    if forall n :: 0 <= n <= |ops| ==> AgreeAt(t, ops, n) {
      forall n | 0 <= n < |ops| ensures !GapAt(t, ops, n) {
        assert AgreeAt(t, ops, n) && AgreeAt(t, ops, n + 1);
        AgreementGoesOn(t, ops, n);
      }
    }
    if forall n :: 0 <= n < |ops| ==> !GapAt(t, ops, n) {
      forall n | 0 <= n <= |ops| ensures AgreeAt(t, ops, n) { AgreeUpTo(t, ops, n); }
    }
  }

  // Source events ------------------------------------------------------------------------------

  predicate SameEvent(p: Point, q: Point) {
    p.eventId.Some? && p.source == q.source && p.eventId == q.eventId
  }

  /** No two stored points of one organization report the same event of the same source. */
  ghost predicate UniqueEvents(t: Tables) {
    forall x, y :: x in t.points && y in t.points && x.0.0 == y.0.0 && SameEvent(t.points[x], t.points[y]) ==> x == y
  }

  lemma AppendKeepsUnique(t: Tables, x: (Key, nat), p: Point)
    requires UniqueEvents(t) && Indexed(t, x.0.0, p)
    ensures UniqueEvents(t.(points := t.points[x := p]))
  {
    var t' := t.(points := t.points[x := p]);
    forall a, b | a in t'.points && b in t'.points && a.0.0 == b.0.0 && SameEvent(t'.points[a], t'.points[b])
      ensures a == b
    {
      if a == x && b != x { assert Matches(t.points[b], p.source, p.eventId.value); }
      if b == x && a != x { assert Matches(t.points[a], p.source, p.eventId.value); }
    }
  }

  lemma {:induction false} InsertedKeepsUnique(t: Tables, k: Key, persisted: nat, points: seq<Point>, n: nat)
    requires n <= |points| && UniqueEvents(t) && Inserted(t, k, persisted, points, n).Success?
    ensures UniqueEvents(Inserted(t, k, persisted, points, n).value)
  {
    hide UniqueEvents;
    hide Indexed;
    if n > 0 {
      InsertedKeepsUnique(t, k, persisted, points, n - 1);
      AppendKeepsUnique(Inserted(t, k, persisted, points, n - 1).value, (k, persisted + n), points[n - 1]);
    }
  }

  lemma StepKeepsUnique(t: Tables, c: Call)
    requires Contiguous(t) && UniqueEvents(t)
    ensures UniqueEvents(Step(t, c))
  {
    hide Contiguous;
    hide Observe;
    hide Known;
    hide Inserted;
    if Record(t, c.key, c.executor, c.fix, c.now).Success? && !Repeats(t, c) {
      var y := Observe(Loaded(t, c.key), c.fix, c.now).value;
      InsertedKeepsUnique(t, y.session.Key(), y.session.persisted, Pending(y.session).value, |Pending(y.session).value|);
    }
  }

  lemma OpStepKeepsUnique(t: Tables, op: Op)
    requires Contiguous(t) && UniqueEvents(t)
    ensures UniqueEvents(OpStep(t, op))
  {
    hide UniqueEvents;
    hide Contiguous;
    hide Step;
    hide Saved;
    hide Begin;
    match op {
      case Locating(c) => StepKeepsUnique(t, c);
      case Opening(order, who, start) =>
        if Begin(order, who, start).Success? { SamePointsUnique(t, Opened(t, Begin(order, who, start).value.session)); }
      case Closing(k, reason) =>
        if k in t.sessions && Close(Loaded(t, k), reason).Success? {
          ClosedRow(t, k, Loaded(t, k), reason);
          SamePointsUnique(t, OpStep(t, op));
        }
    }
  }

  lemma SamePointsUnique(t: Tables, t': Tables)
    requires UniqueEvents(t) && t'.points == t.points
    ensures UniqueEvents(t')
  {
  }

  /** Over any run, every source event of an organization is stored at most once. */
  lemma {:induction false} RunsStoreEventsOnce(t: Tables, ops: seq<Op>)
    requires Contiguous(t) && InOrder(t) && UniqueEvents(t)
    ensures UniqueEvents(Did(t, ops))
  {
    hide UniqueEvents;
    hide OpStep;
    if ops != [] {
      RunsStoreEventsOnce(t, ops[..|ops| - 1]);
      OpStepKeepsUnique(Did(t, ops[..|ops| - 1]), ops[|ops| - 1]);
    }
  }

  /** No two stored sessions clash. */
  ghost predicate Apart(t: Tables) {
    forall j, k :: j in t.sessions && k in t.sessions && j != k ==> !Clash(j, t.sessions[j], k, t.sessions[k])
  }

  /** A row that stays with its order and keeps or clears its status and tokens clashes with no more rows. */
  predicate Yields(x: SessionRow, y: SessionRow) {
    && y.orderId == x.orderId
    && (y.status == Active ==> x.status == Active)
    && (y.publicToken == x.publicToken || y.publicToken == None)
    && (y.locationToken == x.locationToken || y.locationToken == None)
  }

  lemma YieldingKeepsApart(t: Tables, t': Tables, k: Key)
    requires Apart(t) && k in t.sessions && k in t'.sessions && Yields(t.sessions[k], t'.sessions[k])
    requires t'.sessions == t.sessions[k := t'.sessions[k]]
    ensures Apart(t')
  {
  }

  lemma StepYields(t: Tables, c: Call)
    requires Contiguous(t) && Step(t, c) != t
    ensures c.key in t.sessions && c.key in Step(t, c).sessions && Yields(t.sessions[c.key], Step(t, c).sessions[c.key])
    ensures Step(t, c).sessions == t.sessions[c.key := Step(t, c).sessions[c.key]]
  {
    hide Contiguous;
    hide Known;
    hide Rows;
    hide Saved;
    RecordAppends(t, c.key, c.executor, c.fix, c.now);
  }

  lemma OpStepKeepsApart(t: Tables, op: Op)
    requires Contiguous(t) && Apart(t)
    ensures Apart(OpStep(t, op))
  {
    hide Contiguous;
    hide Step;
    hide Saved;
    hide Begin;
    match op {
      case Locating(c) =>
        if Step(t, c) != t {
          StepYields(t, c);
          YieldingKeepsApart(t, Step(t, c), c.key);
        }
      case Opening(order, who, start) =>
      case Closing(k, reason) =>
        if k in t.sessions && Close(Loaded(t, k), reason).Success? {
          ClosedRow(t, k, Loaded(t, k), reason);
          YieldingKeepsApart(t, OpStep(t, op), k);
        }
    }
  }

  /** Over any run, an order has at most one active session and no token serves two sessions,
      although only the insertion of a session is checked. */
  lemma {:induction false} RunsKeepSessionsApart(t: Tables, ops: seq<Op>)
    requires Contiguous(t) && InOrder(t) && Apart(t)
    ensures Apart(Did(t, ops))
  {
    hide Apart;
    hide OpStep;
    if ops != [] {
      RunsKeepSessionsApart(t, ops[..|ops| - 1]);
      OpStepKeepsApart(Did(t, ops[..|ops| - 1]), ops[|ops| - 1]);
    }
  }

  /** Over any run, histories stay contiguous and ordered and are only appended to. */
  lemma {:induction false} RunsMoveOnward(t: Tables, ops: seq<Op>)
    requires Contiguous(t) && InOrder(t)
    ensures Onward(t, Did(t, ops))
  {
    hide OpStep;
    if ops == [] {
      Stays(t);
    } else {
      var n := |ops| - 1;
      RunsMoveOnward(t, ops[..n]);
      OpStepKeeps(Did(t, ops[..n]), ops[n]);
      OnwardTwice(t, Did(t, ops[..n]), Did(t, ops));
    }
  }

  lemma OnwardTwice(t: Tables, u: Tables, v: Tables)
    requires Contiguous(t) && Onward(t, u) && Onward(u, v)
    ensures Onward(t, v)
  {
    hide Contiguous;
    hide InOrder;
    hide Rows;
    forall k | k in t.sessions ensures Rows(t, k) <= Rows(v, k) { assert Rows(u, k) <= Rows(v, k); }
  }

  // Overlapping transactions ---------------------------------------------------------------------

  /** An open transaction has decided on what it read. A location and a closing hold the row lock
      of their session; an opening has no row to lock yet. */
  datatype Open = Open(op: Op, decision: SessionDecision, expected: nat)

  datatype World = World(t: Tables, open: map<nat, Open>, done: seq<Op>)

  datatype Action = Enter(worker: nat, op: Op) | Finish(worker: nat) | Abandon(worker: nat)

  function Subject(op: Op): Key
    requires !op.Opening?
  {
    if op.Locating? then op.call.key else op.key
  }

  predicate SameRow(a: Op, b: Op) {
    !a.Opening? && !b.Opening? && Subject(a) == Subject(b)
  }

  ghost predicate Locked(w: World, k: Key) {
    exists i :: i in w.open && !w.open[i].op.Opening? && Subject(w.open[i].op) == k
  }

  /** What an operation reads and decides; refused and repeated ones end at once. */
  ghost function Decides(t: Tables, op: Op): Result<SessionDecision>
    requires Contiguous(t)
  {
    match op
    case Locating(c) =>
      if c.key !in t.sessions then Failure(NotFound)
      else if t.sessions[c.key].executor != c.executor then Failure(InvalidTransition)
      else Observe(Loaded(t, c.key), c.fix, c.now)
    case Opening(order, who, start) => Begin(order, who, start)
    case Closing(k, reason) => if k !in t.sessions then Failure(NotFound) else Close(Loaded(t, k), reason)
  }

  ghost function Next(w: World, a: Action): World
    requires Contiguous(w.t)
  {
    match a
    case Enter(i, op) =>
      if i in w.open || (!op.Opening? && Locked(w, Subject(op))) || (op.Locating? && Repeats(w.t, op.call)) || Decides(w.t, op).Failure? then w
      else w.(open := w.open[i := Open(op, Decides(w.t, op).value, if op.Opening? then 0 else w.t.sessions[Subject(op)].version)])
    case Finish(i) =>
      if i !in w.open then w
      else World(Committed(w.t, w.open[i]), w.open - {i}, w.done + [w.open[i].op])
    case Abandon(i) => w.(open := w.open - {i})
  }

  /** The insertion of a new session, or the guarded save of an existing one, or a rollback. */
  ghost function Committed(t: Tables, o: Open): Tables {
    if o.op.Opening? then Opened(t, o.decision.session) else After(t, Saved(t, o.decision.session, o.expected))
  }

  /** An open transaction's decision is still what its operation would decide now. */
  ghost predicate Stands(t: Tables, o: Open)
    requires Contiguous(t)
  {
    && Decides(t, o.op) == Success(o.decision)
    && (!o.op.Opening? ==> o.expected == t.sessions[Subject(o.op)].version)
  }

  ghost predicate Sound(w: World, t: Tables)
    requires Contiguous(t) && InOrder(t)
  {
    && w.t == Did(t, w.done)
    && (forall i :: i in w.open ==> Stands(w.t, w.open[i]))
    && (forall i, j :: i in w.open && j in w.open && SameRow(w.open[i].op, w.open[j].op) ==> i == j)
  }

  /** Committing an open transaction does what its operation would do at that moment: if its event
      was stored meanwhile, the unique index turns the insertion away. */
  lemma CommitIsSerial(t: Tables, o: Open)
    requires Contiguous(t) && Stands(t, o)
    ensures Committed(t, o) == OpStep(t, o.op)
  {
    hide Contiguous;
    hide Observe;
    hide Begin;
    hide Close;
    hide Known;
    hide Stamped;
    hide Loaded;
    hide Inserted;
    if o.op.Locating? && Repeats(t, o.op.call) { IndexRefuses(t, o); }
  }

  lemma IndexRefuses(t: Tables, o: Open)
    requires Contiguous(t) && Stands(t, o) && o.op.Locating? && Repeats(t, o.op.call)
    ensures After(t, Saved(t, o.decision.session, o.expected)) == t
  {
    hide Known;
    hide Contiguous;
    var c := o.op.call;
    var s := Loaded(t, c.key);
    hide Observe;
    hide Stamped;
    ObservedPending(s, c.fix, c.now);
    StampedKeepsEvent(s, c.fix, c.now);
    if o.decision.event.None? {
      SavedUnchanged(t, c.key, s);
    } else {
      var p := Stamped(s, c.fix, c.now);
      assert !Indexed(t, c.key.0, p);
      assert Inserted(t, c.key, s.persisted, [p], 0) == Success(t);
    }
  }

  /** Other sessions are left alone. */
  ghost predicate Untouched(t: Tables, t': Tables, k: Key)
    requires Contiguous(t) && Contiguous(t')
  {
    k in t.sessions ==> k in t'.sessions && t'.sessions[k] == t.sessions[k] && Loaded(t', k) == Loaded(t, k)
  }

  lemma StepTouchesOne(t: Tables, c: Call, k: Key)
    requires Contiguous(t) && Contiguous(Step(t, c)) && k != c.key
    ensures Untouched(t, Step(t, c), k)
  {
    hide Contiguous;
    hide Observe;
    hide Known;
    hide Rows;
    hide Loaded;
    hide Saved;
    if c.key in t.sessions && t.sessions[c.key].executor == c.executor && !Repeats(t, c)
       && Observe(Loaded(t, c.key), c.fix, c.now).Success? {
      RecordAppends(t, c.key, c.executor, c.fix, c.now);
      if k in t.sessions { LoadedAlike(t, Step(t, c), k); }
    }
  }

  lemma LoadedAlike(t: Tables, t': Tables, k: Key)
    requires Contiguous(t) && Contiguous(t') && k in t.sessions && k in t'.sessions
    requires t'.sessions[k] == t.sessions[k] && Rows(t', k) == Rows(t, k)
    ensures Loaded(t', k) == Loaded(t, k)
  {
    var n := t.sessions[k].pointCount;
    if n > 0 { assert Rows(t', k)[n - 1] == Rows(t, k)[n - 1]; }
  }

  lemma OpTouchesOne(t: Tables, op: Op, k: Key)
    requires Contiguous(t) && Contiguous(OpStep(t, op)) && (!op.Opening? ==> k != Subject(op))
    ensures Untouched(t, OpStep(t, op), k)
  {
    hide Contiguous;
    hide Step;
    hide Saved;
    hide Begin;
    match op {
      case Locating(c) => StepTouchesOne(t, c, k);
      case Opening(_, _, _) =>
      case Closing(j, reason) =>
        if j in t.sessions && Close(Loaded(t, j), reason).Success? { ClosedRow(t, j, Loaded(t, j), reason); }
    }
  }

  lemma OthersStand(t: Tables, op: Op, o: Open)
    requires Contiguous(t) && Contiguous(OpStep(t, op)) && Stands(t, o)
    requires !o.op.Opening? && !op.Opening? ==> Subject(o.op) != Subject(op)
    ensures Stands(OpStep(t, op), o)
  {
    hide Contiguous;
    hide Observe;
    hide Close;
    hide Begin;
    hide Loaded;
    hide OpStep;
    if !o.op.Opening? { OpTouchesOne(t, op, Subject(o.op)); }
  }

  lemma FinishKeeps(w: World, t: Tables, i: nat)
    requires Contiguous(t) && InOrder(t) && Sound(w, t) && i in w.open
    ensures Sound(Next(w, Finish(i)), t)
  {
    hide Stands;
    hide Contiguous;
    hide InOrder;
    hide OpStep;
    hide Committed;
    hide Did;
    var w', op := Next(w, Finish(i)), w.open[i].op;
    CommitIsSerial(w.t, w.open[i]);
    DidSnoc(t, w.done + [op], |w.done|);
    assert (w.done + [op])[..|w.done|] == w.done && (w.done + [op])[..|w.done| + 1] == w.done + [op];
    forall j | j in w'.open ensures Stands(w'.t, w'.open[j]) { OthersStand(w.t, op, w.open[j]); }
  }

  ghost function Run(t: Tables, schedule: seq<Action>): World
    requires Contiguous(t) && InOrder(t)
    ensures Sound(Run(t, schedule), t)
  {
    if schedule == [] then World(t, map[], [])
    else
      var w, a := Run(t, schedule[..|schedule| - 1]), schedule[|schedule| - 1];
      SoundNext(w, t, a);
      Next(w, a)
  }

  lemma SoundNext(w: World, t: Tables, a: Action)
    requires Contiguous(t) && InOrder(t) && Sound(w, t)
    ensures Sound(Next(w, a), t)
  {
    hide Contiguous;
    hide InOrder;
    hide Decides;
    hide Committed;
    hide Known;
    hide Did;
    if a.Finish? && a.worker in w.open { FinishKeeps(w, t, a.worker); }
  }

  /** Locations, openings and closings may overlap in any way that the row locks allow, and be
      abandoned: the tables are those of the finished operations made one after another, so that
      the history of every session is contiguous, ordered and only appended to, and no source
      event is stored twice. */
  lemma OverlappingRunsAreSerial(t: Tables, schedule: seq<Action>)
    requires Contiguous(t) && InOrder(t) && UniqueEvents(t)
    ensures var w := Run(t, schedule); w.t == Did(t, w.done) && UniqueEvents(w.t) && Onward(t, w.t)
  {
    hide UniqueEvents;
    hide Onward;
    var w := Run(t, schedule);
    RunsStoreEventsOnce(t, w.done);
    RunsMoveOnward(t, w.done);
  }

  // A gap that occurs -----------------------------------------------------------------------------

  const NO_ROWS := Tables(map[], map[])

  /** The first two reports of a session just begun. */
  lemma TwoReports(t: Tables, k: Key, executor: string) returns (first: Call, second: Call)
    requires Contiguous(t) && t.sessions.Keys == {k} && t.sessions[k].status == Active && t.sessions[k].executor == executor && Rows(t, k) == []
    ensures first.key == k && second.key == k
    ensures !Gap(t, first) && Contiguous(Step(t, first)) && !Gap(Step(t, first), second) && Contiguous(Step(Step(t, first), second))
    ensures var u := Step(Step(t, first), second);
            && u.sessions.Keys == {k} && u.sessions[k].status == Active && u.sessions[k].executor == executor
            && Rows(u, k) == [Point(1.0, 1.0, 1, 1, Telegram, None, Some("e")), Point(2.0, 2.0, 2, 2, Telegram, None, Some("f"))]
  {
    hide Contiguous;
    hide Rows;
    hide Known;
    hide Loaded;
    hide Observe;
    hide Step;
    first := Call(k, executor, Fix(1.0, 1.0, Telegram, Some(1), None, Some("e")), 1);
    second := Call(k, executor, Fix(2.0, 2.0, Telegram, Some(2), None, Some("f")), 2);
    var a := Point(1.0, 1.0, 1, 1, Telegram, None, Some("e"));
    LoadedAsFull(t, k);
    RowsKnow(t, k, []);
    Reported(t, first, a);
    var t1 := Step(t, first);
    LoadedAsFull(t1, k);
    RowsKnow(t1, k, [a]);
    Reported(t1, second, Point(2.0, 2.0, 2, 2, Telegram, None, Some("f")));
  }

  /** A third report, of the first event from another source, falls into the gap and is stored. */
  lemma ThirdReport(t: Tables, k: Key, executor: string) returns (third: Call)
    requires Contiguous(t) && t.sessions.Keys == {k} && t.sessions[k].status == Active && t.sessions[k].executor == executor
    requires Rows(t, k) == [Point(1.0, 1.0, 1, 1, Telegram, None, Some("e")), Point(2.0, 2.0, 2, 2, Telegram, None, Some("f"))]
    ensures third.key == k && Gap(t, third) && Contiguous(Step(t, third)) && k in Step(t, third).sessions && |Rows(Step(t, third), k)| == 3
  {
    hide Contiguous;
    hide Rows;
    hide Known;
    hide Loaded;
    hide Observe;
    hide Step;
    third := Call(k, executor, Fix(3.0, 3.0, Max, None, None, Some("e")), 3);
    LoadedAsFull(t, k);
    RowsKnow(t, k, Rows(t, k));
    assert HasEventId(Rows(t, k), "e") by { assert Rows(t, k)[0].eventId == Some("e"); }
    Reported(t, third, Point(3.0, 3.0, 3, 3, Max, None, Some("e")));
  }

  /** From empty tables, for every session that can begin there is a run into a gap: its executor
      reports event "e" and then "f" over Telegram, and then an event "e" over MAX. The windowed
      run stores all three points, the fully loaded run only two. */
  lemma WindowMissesAnOlderSource(order: Key, executor: string, start: SessionStart) returns (ops: seq<Op>, last: Op, k: Key)
    requires Begin(order, executor, start).Success?
    ensures Contiguous(NO_ROWS) && InOrder(NO_ROWS) && GapAt(NO_ROWS, ops + [last], |ops|)
    ensures var windowed, full := Did(NO_ROWS, ops + [last]), FullDid(NO_ROWS, ops + [last]);
            k in windowed.sessions && |Rows(windowed, k)| == 3 && k in full.sessions && |Rows(full, k)| == 2
  {
    hide Begin;
    hide Contiguous;
    hide InOrder;
    hide Rows;
    hide Gap;
    hide Step;
    hide FullStep;
    hide Did;
    hide FullDid;
    hide FullOpStep;
    var s := Begin(order, executor, start).value.session;
    k := s.Key();
    JustBegun(order, executor, start);
    EmptyTables();
    var t := OpStep(NO_ROWS, Opening(order, executor, start));
    EmptyTable(t, k);
    var first, second := TwoReports(t, k, executor);
    var t1 := Step(t, first);
    var t2 := Step(t1, second);
    var third := ThirdReport(t2, k, executor);
    ops, last := [Opening(order, executor, start), Locating(first), Locating(second)], Locating(third);
    var all := ops + [last];
    assert all[..0] == [] && all[..3] == ops && all[..4] == all;
    NothingDone(NO_ROWS);
    DidSnoc(NO_ROWS, all, 0);
    DidSnoc(NO_ROWS, all, 1);
    DidSnoc(NO_ROWS, all, 2);
    DidSnoc(NO_ROWS, all, 3);
    Diverge(t, t1, t2, all, first, second, third);
  }

  lemma EmptyTables()
    ensures Contiguous(NO_ROWS) && InOrder(NO_ROWS)
  {
  }

  lemma NothingDone(t: Tables)
    requires Contiguous(t) && InOrder(t)
    ensures Did(t, []) == t == FullDid(t, [])
  {
  }

  /** Where the full run goes while the windowed run meets its only gap at the end. */
  lemma Diverge(t: Tables, t1: Tables, t2: Tables, all: seq<Op>, first: Call, second: Call, third: Call)
    requires Contiguous(NO_ROWS) && InOrder(NO_ROWS) && |all| == 4 && all[0].Opening?
    requires all[1] == Locating(first) && all[2] == Locating(second) && all[3] == Locating(third)
    requires Did(NO_ROWS, all[..1]) == t && Did(NO_ROWS, all[..2]) == t1 && Did(NO_ROWS, all[..3]) == t2
    requires !Gap(t, first) && !Gap(t1, second) && Gap(t2, third)
    ensures FullDid(NO_ROWS, all) == t2
  {
    hide Gap;
    hide Contiguous;
    hide InOrder;
    hide Did;
    hide FullDid;
    hide FullStep;
    forall n | 0 <= n < 3 ensures !GapAt(NO_ROWS, all, n) {}
    AgreeUpTo(NO_ROWS, all, 3);
    DidSnoc(NO_ROWS, all, 3);
    assert all[..4] == all;
    GapChangesNothing(t2, third);
  }

  lemma EmptyTable(t: Tables, k: Key)
    requires t.sessions.Keys == {k} && t.sessions[k].pointCount == 0 && t.points == map[]
    ensures Contiguous(t) && InOrder(t) && Rows(t, k) == []
  {
  }

  /** A report in order of an event the window does not show is stored as it is. */
  lemma Reported(t: Tables, c: Call, p: Point)
    requires Contiguous(t) && c.key in t.sessions && t.sessions[c.key].executor == c.executor && t.sessions[c.key].status == Active
    requires !Repeats(t, c)
    requires c.fix.eventId == Some("e") || c.fix.eventId == Some("f")
    requires var points := Loaded(t, c.key).points;
             |points| <= 1 && (points != [] ==> points[0].eventId != c.fix.eventId && points[0].capturedAt <= p.capturedAt)
    requires -90.0 <= c.fix.latitude <= 90.0 && -180.0 <= c.fix.longitude <= 180.0 && c.fix.accuracy.None?
    requires p == Point(c.fix.latitude, c.fix.longitude, if c.fix.captured.Some? then c.fix.captured.value else c.now, c.now,
                        c.fix.source, None, c.fix.eventId)
    ensures Contiguous(Step(t, c)) && Rows(Step(t, c), c.key) == Rows(t, c.key) + [p]
    ensures Step(t, c).sessions.Keys == t.sessions.Keys
    ensures Step(t, c).sessions[c.key].status == Active && Step(t, c).sessions[c.key].executor == c.executor
    ensures Observe(Loaded(t, c.key), c.fix, c.now).Success? && !HasEventId(Loaded(t, c.key).points, c.fix.eventId.value)
  {
    hide Contiguous;
    hide Rows;
    hide Known;
    hide Record;
    hide Loaded;
    assert !IsSpace("e"[0]) && !IsSpace("f"[0]);
    hide Blank;
    Appends(t, c, p);
  }

  lemma GapChangesNothing(t: Tables, c: Call)
    requires Contiguous(t) && Gap(t, c)
    ensures FullStep(t, c) == t
  {
    hide Observe;
    hide Contiguous;
    hide Saved;
    hide Known;
    ObservedAlike(t, c.key, c.fix, c.now);
    SavedUnchanged(t, c.key, Full(t, c.key));
  }

  /** What is known of a table whose only session holds these points. */
  lemma RowsKnow(t: Tables, k: Key, points: seq<Point>)
    requires Contiguous(t) && t.sessions.Keys == {k} && Rows(t, k) == points
    ensures forall source, e :: Known(t, k.0, source, e) ==> exists i :: 0 <= i < |points| && Matches(points[i], source, e)
  {
    forall source, e | Known(t, k.0, source, e) ensures exists i :: 0 <= i < |points| && Matches(points[i], source, e) {
      var x :| x in t.points && x.0.0 == k.0 && Matches(t.points[x], source, e);
      assert x == (k, x.1) && Rows(t, k)[x.1 - 1] == t.points[x];
    }
  }

  lemma Appends(t: Tables, c: Call, p: Point)
    requires Contiguous(t) && c.key in t.sessions && t.sessions[c.key].executor == c.executor && t.sessions[c.key].status == Active
    requires !Repeats(t, c) && p == Stamped(Loaded(t, c.key), c.fix, c.now) && PointOk(p)
    requires c.fix.eventId.Some? ==> !HasEventId(Loaded(t, c.key).points, c.fix.eventId.value)
    ensures Contiguous(Step(t, c)) && Rows(Step(t, c), c.key) == Rows(t, c.key) + [p]
    ensures Step(t, c).sessions.Keys == t.sessions.Keys
    ensures Step(t, c).sessions[c.key].status == Active && Step(t, c).sessions[c.key].executor == c.executor
    ensures Observe(Loaded(t, c.key), c.fix, c.now).Success?
  {
    hide Contiguous;
    hide Rows;
    hide Known;
    hide Record;
    hide Loaded;
    var s := Loaded(t, c.key);
    LoadedHas(t, c.key);
    ObservedInOrder(s, c.fix, c.now);
    hide Observe;
    StampedKeepsEvent(s, c.fix, c.now);
    RecordAppends(t, c.key, c.executor, c.fix, c.now);
  }

  lemma LoadedHas(t: Tables, k: Key)
    requires Contiguous(t) && k in t.sessions
    ensures Loaded(t, k).status == t.sessions[k].status && Loaded(t, k).executor == t.sessions[k].executor
  {
  }

  lemma ObservedInOrder(s: Session, fix: Fix, now: int)
    requires s.status == Active && PointOk(Stamped(s, fix, now)) && (fix.eventId.Some? ==> !HasEventId(s.points, fix.eventId.value))
    ensures Observe(s, fix, now).Success? && Observe(s, fix, now).value.event.Some?
    ensures var y := Observe(s, fix, now).value.session; y.status == Active && y.executor == s.executor
  {
    hide PointOk;
    hide HasEventId;
    hide Stamped;
    StampedInOrder(s, fix, now);
    StampedKeepsEvent(s, fix, now);
  }
}
