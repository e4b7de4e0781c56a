/** The outbox as an event log: replaying the events of one aggregate, with every
    event checked against the state it claims to leave, rebuilds the aggregate. */
module EventLog {
  import opened Prelude
  import opened Domain
  import opened WorkOrders

  /** The events of one aggregate, in append order. */
  function LogOf(outbox: seq<Event>, a: Aggregate, k: Key): seq<Event> {
    if outbox == [] then []
    else
      var last := outbox[|outbox| - 1];
      LogOf(outbox[..|outbox| - 1], a, k) + (if last.aggregate == a && last.key == k then [last] else [])
  }

  lemma {:induction false} LogOfAppend(outbox: seq<Event>, more: seq<Event>, a: Aggregate, k: Key)
    ensures LogOf(outbox + more, a, k) == LogOf(outbox, a, k) + LogOf(more, a, k)
  {
    if more == [] {
      assert outbox + more == outbox;
    } else {
      var n := |more| - 1;
      assert (outbox + more)[..|outbox + more| - 1] == outbox + more[..n];
      LogOfAppend(outbox, more[..n], a, k);
    }
  }

  ghost predicate Numbered(log: seq<Event>) {
    forall i :: 0 <= i < |log| ==> log[i].version == i + 1
  }

  // Orders -----------------------------------------------------------------

  /** What an observer of the events knows of an order. */
  datatype View = View(
    number: string,
    source: string,
    requester: Option<string>,
    coordinator: Option<string>,
    status: OrderStatus,
    poolMode: Option<PoolMode>,
    assignee: Option<string>,
    responses: map<string, ResponseStatus>,
    photos: Option<nat>)

  datatype Replayed = Nothing | Live(view: View) | Broken

  function ViewOf(o: Order): View {
    View(o.number, o.intent.source, o.intent.requester, o.coordinator, o.status, o.poolMode, o.assignee, o.responses,
         match o.report case None => None case Some(r) => Some(|r.photoRefs|))
  }

  /** Once an order is coordinated, nobody else publishes, assigns or cancels it. */
  predicate Entitled(v: View, actor: Option<string>) {
    v.coordinator.None? || v.coordinator == actor
  }

  /** One event, legal only from the states the lifecycle admits. */
  function ReplayEvent(r: Replayed, p: Payload): Replayed {
    match r
    case Broken => Broken
    case Nothing =>
      if p.OrderSubmitted? then Live(View(p.number, p.origin, p.requester, None, Submitted, None, None, map[], None))
      else Broken
    case Live(v) =>
      match p {
        case CoordinationClaimed(who) =>
          if Terminal(v.status) || v.coordinator.Some? then Broken else Live(v.(coordinator := Some(who)))
        case PoolPublished(mode, actor) =>
          if v.status != Submitted || !Entitled(v, actor) then Broken else Live(v.(status := PoolOpen, poolMode := Some(mode)))
        case InterestRecorded(who) =>
          if v.status != PoolOpen || v.poolMode != Some(Curated) then Broken
          else Live(v.(responses := v.responses[who := Interested]))
        case InterestWithdrawn(who) =>
          if v.status != PoolOpen || who !in v.responses || v.responses[who] != Interested then Broken
          else Live(v.(responses := v.responses[who := Withdrawn]))
        case FirstClaimWon(who) =>
          if v.status != PoolOpen || v.poolMode != Some(FirstClaim) then Broken
          else Live(v.(status := Assigned, assignee := Some(who), responses := v.responses[who := Selected]))
        case OrderAssigned(who, actor) =>
          if (v.status != Submitted && v.status != PoolOpen) || !Entitled(v, actor) then Broken
          else if v.poolMode == Some(Curated) then
            Live(v.(status := Assigned, assignee := Some(who), responses := Resolved(v.responses, who)))
          else Live(v.(status := Assigned, assignee := Some(who)))
        case OrderAccepted(who) =>
          if v.status != Assigned || v.assignee != Some(who) then Broken else Live(v.(status := Accepted))
        case AssignmentRejected(who) =>
          if v.status != Assigned || v.assignee != Some(who) then Broken
          else Live(v.(assignee := None, status := if v.poolMode.None? then Submitted else PoolOpen,
                       responses := if who in v.responses then v.responses[who := Withdrawn] else v.responses))
        case TravelStarted(who) =>
          if v.status != Accepted || v.assignee != Some(who) then Broken else Live(v.(status := EnRoute))
        case WorkStarted(who) =>
          if (v.status != Accepted && v.status != EnRoute) || v.assignee != Some(who) then Broken
          else Live(v.(status := InProgress))
        case OrderCompleted(who, photos) =>
          if v.status != InProgress || v.assignee != Some(who) then Broken
          else Live(v.(status := Completed, photos := Some(photos)))
        case OrderCancelled(_, actor) =>
          if Terminal(v.status) || !Entitled(v, actor) then Broken else Live(v.(status := Cancelled))
        case _ => Broken
      }
  }

  function Replay(log: seq<Event>): Replayed {
    if log == [] then Nothing
    else ReplayEvent(Replay(log[..|log| - 1]), log[|log| - 1].payload)
  }

  lemma ReplaySnoc(log: seq<Event>, e: Event)
    ensures Replay(log + [e]) == ReplayEvent(Replay(log), e.payload)
  {
    assert (log + [e])[..|log|] == log;
  }

  /** A command's event leads the replayed view to the new order's view. */
  lemma DecisionReplays(o: Order, c: Command)
    requires Decide(o, c).Success? && Decide(o, c).value.event.Some?
    ensures var d := Decide(o, c).value; ReplayEvent(Live(ViewOf(o)), d.event.value) == Live(ViewOf(d.order))
  {
  }

  // What commands announce -------------------------------------------------

  /** The event a command asks to record. */
  function Announcement(c: Command): Payload {
    match c
    case ClaimCoordination(who) => CoordinationClaimed(who)
    case PublishPool(mode, actor) => PoolPublished(mode, actor)
    case ExpressInterest(who) => InterestRecorded(who)
    case WithdrawInterest(who) => InterestWithdrawn(who)
    case ClaimFirst(who) => FirstClaimWon(who)
    case Assign(who, actor) => OrderAssigned(who, actor)
    case Accept(who) => OrderAccepted(who)
    case RejectAssignment(who) => AssignmentRejected(who)
    case StartTravel(who) => TravelStarted(who)
    case StartWork(who) => WorkStarted(who)
    case Complete(who, report) => OrderCompleted(who, |report.photoRefs|)
    case Cancel(reason, actor) => OrderCancelled(Strip(reason), actor)
  }

  /** The command's arguments are in order: names and reasons are given, the evidence is there. */
  predicate WellPut(c: Command, rules: Evidence) {
    match c
    case ClaimCoordination(who) => who != ""
    case ExpressInterest(who) => who != ""
    case ClaimFirst(who) => who != ""
    case Assign(who, _) => who != ""
    case Complete(_, report) => MeetsEvidence(report, rules)
    case Cancel(reason, _) => !Blank(reason)
    case _ => true
  }

  /** What the command asks for is the case already: its coordinator coordinates, or the
      executor's interest stands. */
  predicate Redundant(o: Order, c: Command) {
    match c
    case ClaimCoordination(who) => !Terminal(o.status) && o.coordinator == Some(who) && who != ""
    case ExpressInterest(who) => o.status == PoolOpen && who in o.responses && o.responses[who] == Interested && who != ""
    case _ => false
  }

  ghost predicate Legal(o: Order, c: Command) {
    ReplayEvent(Live(ViewOf(o)), Announcement(c)).Live?
  }

  /** The command does what its event says, exactly when that is legal and well put. */
  ghost predicate Decided(o: Order, c: Command) {
    var r := Decide(o, c);
    && (r.Success? <==> Redundant(o, c) || (Legal(o, c) && WellPut(c, o.intent.evidence)))
    && (Redundant(o, c) ==> r.value == Decision(o, None))
    && (r.Success? && !Redundant(o, c) ==>
          && r.value.event == Some(Announcement(c))
          && Live(ViewOf(r.value.order)) == ReplayEvent(Live(ViewOf(o)), Announcement(c))
          && r.value.order.report == if c.Complete? then Some(c.report) else o.report)
    && (r.Failure? ==>
          r.error ==
          if Legal(o, c) || (c == ClaimCoordination("") && !Terminal(o.status)) then
            if c.Complete? then EvidenceMissing else ValueError
          else InvalidTransition)
  }

  lemma ResponsesDecide(o: Order, c: Command)
    requires Sound(o) && AboutResponses(c)
    ensures Decided(o, c)
  {
    hide MeetsEvidence;
  }

  lemma StatusDecides(o: Order, c: Command)
    requires Sound(o) && !AboutResponses(c)
    ensures Decided(o, c)
  {
    hide MeetsEvidence;
    hide Strip;
  }

  /** A sound order carries out exactly the well put commands whose event its log admits, by
      recording that event, and the redundant ones, by doing nothing. It refuses what its log
      does not admit as an invalid transition; only an empty coordinator is noticed before. */
  lemma DecidesExactly(o: Order, c: Command)
    requires Sound(o)
    ensures Decided(o, c)
  {
    hide Decide;
    hide Decided;
    if AboutResponses(c) {
      ResponsesDecide(o, c);
    } else {
      StatusDecides(o, c);
    }
  }

  /** Publishing, assigning and cancelling succeed exactly when the status allows it, nobody else
      coordinates the order, and the executor or the reason is given. */
  lemma OnlyTheCoordinatorActs(o: Order, mode: PoolMode, text: string, actor: Option<string>)
    requires Sound(o)
    ensures var free := o.coordinator.None? || o.coordinator == actor;
            && (Decide(o, Command.PublishPool(mode, actor)).Success? <==> o.status == Submitted && free)
            && (Decide(o, Command.Assign(text, actor)).Success? <==> Open(o.status) && free && text != "")
            && (Decide(o, Command.Cancel(text, actor)).Success? <==> !Terminal(o.status) && free && !Blank(text))
  {
    hide Decide;
    hide Strip;
    DecidesExactly(o, Command.PublishPool(mode, actor));
    DecidesExactly(o, Command.Assign(text, actor));
    DecidesExactly(o, Command.Cancel(text, actor));
  }

  /** A report completes an order exactly when its assignee is at work and it holds the photos, the
      comment, the signature and the code that the rules ask for. */
  lemma ReportsCompleteExactly(o: Order, who: string, report: Report)
    requires Sound(o)
    ensures var rules := o.intent.evidence;
            Decide(o, Command.Complete(who, report)).Success? <==>
            && o.status == InProgress && o.assignee == Some(who) && |report.photoRefs| >= rules.minimumPhotos
            && (rules.comment ==> report.comment.Some? && !Blank(report.comment.value))
            && (rules.signature ==> report.signatureRef.Some? && report.signatureRef.value != "")
            && (rules.customerCode ==> report.customerCode.Some? && report.customerCode.value != "")
  {
    hide Decide;
    DecidesExactly(o, Command.Complete(who, report));
  }

  // Sessions ---------------------------------------------------------------

  /** What an event tells of a recorded point. */
  datatype Mark = Mark(capturedAt: int, source: LocationSource, eventId: Option<string>)

  function MarksOf(points: seq<Point>): seq<Mark> {
    seq(|points|, i requires 0 <= i < |points| => Mark(points[i].capturedAt, points[i].source, points[i].eventId))
  }

  datatype Trail = NoTrail | Trail(status: SessionStatus, marks: seq<Mark>) | BrokenTrail

  function TrailFor(s: Session): Trail {
    Trail(s.status, MarksOf(s.points))
  }

  function TrailEvent(t: Trail, p: Payload): Trail {
    match t
    case BrokenTrail => BrokenTrail
    case NoTrail => if p.TrackingStarted? then Trail(Active, []) else BrokenTrail
    case Trail(status, marks) =>
      if status != Active then BrokenTrail
      else match p {
        case PointRecorded(at, source, eventId) => Trail(Active, marks + [Mark(at, source, eventId)])
        case TrackingCompleted(n) => if n == |marks| then Trail(Finished, marks) else BrokenTrail
        case TrackingCancelled(_) => Trail(Aborted, marks)
        case _ => BrokenTrail
      }
  }

  function TrailOf(log: seq<Event>): Trail {
    if log == [] then NoTrail
    else TrailEvent(TrailOf(log[..|log| - 1]), log[|log| - 1].payload)
  }

  lemma TrailSnoc(log: seq<Event>, e: Event)
    ensures TrailOf(log + [e]) == TrailEvent(TrailOf(log), e.payload)
  {
    assert (log + [e])[..|log|] == log;
  }

  // Lifecycle ----------------------------------------------------------------

  /** The events that mark a stage an order reaches at most once. */
  datatype Milestone = Publishing | Acceptance | Departure | WorkStart | Completion | Cancellation

  predicate Marks(p: Payload, m: Milestone) {
    match m
    case Publishing => p.PoolPublished?
    case Acceptance => p.OrderAccepted?
    case Departure => p.TravelStarted?
    case WorkStart => p.WorkStarted?
    case Completion => p.OrderCompleted?
    case Cancellation => p.OrderCancelled?
  }

  function Count(log: seq<Event>, m: Milestone): nat {
    if log == [] then 0
    else Count(log[..|log| - 1], m) + (if Marks(log[|log| - 1].payload, m) then 1 else 0)
  }

  /** How often a stage can have been reached by an order in this view. */
  function Cap(v: View, m: Milestone): nat {
    var reached := match m
      case Publishing => v.poolMode.Some? && v.status != Submitted
      case Acceptance => !Open(v.status) && v.status != Assigned
      case Departure => !Open(v.status) && v.status != Assigned && v.status != Accepted
      case WorkStart => v.status == InProgress || Terminal(v.status)
      case Completion => v.status == Completed
      case Cancellation => v.status == Cancelled;
    if reached then 1 else 0
  }

  function CapOf(r: Replayed, m: Milestone): nat {
    if r.Live? then Cap(r.view, m) else 0
  }

  /** An event that marks a stage raises its cap, and no event lowers one. */
  lemma CapRises(r: Replayed, p: Payload, m: Milestone)
    requires ReplayEvent(r, p).Live?
    ensures CapOf(r, m) + (if Marks(p, m) then 1 else 0) <= CapOf(ReplayEvent(r, p), m) <= 1
    ensures m == Completion || m == Cancellation ==>
              CapOf(r, m) + (if Marks(p, m) then 1 else 0) == CapOf(ReplayEvent(r, p), m)
  {
    match m {
      case Publishing =>
      case Acceptance =>
      case Departure =>
      case WorkStart =>
      case Completion =>
      case Cancellation =>
    }
  }

  /** In any log that replays, each stage is reached at most once, a completed or
      cancelled order has exactly the one closing event, and the other never. */
  lemma {:induction false} MilestonesOnce(log: seq<Event>, m: Milestone)
    requires Replay(log).Live?
    ensures Count(log, m) <= Cap(Replay(log).view, m) <= 1
    ensures m == Completion || m == Cancellation ==> Count(log, m) == Cap(Replay(log).view, m)
  {
    hide ReplayEvent;
    hide Cap;
    hide Marks;
    var n := |log| - 1;
    CapRises(Replay(log[..n]), log[n].payload, m);
    if Replay(log[..n]).Live? {
      MilestonesOnce(log[..n], m);
    } else {
      BrokenStaysBroken(log[..n], log[n].payload);
      assert log[..n] == [];
    }
  }

  lemma BrokenStaysBroken(log: seq<Event>, p: Payload)
    requires ReplayEvent(Replay(log), p).Live? && !Replay(log).Live?
    ensures log == []
  {
    if log != [] { NonemptyReplays(log); }
  }

  /** After a coordinator has claimed the order, nobody else claims it, and every publication,
      assignment and cancellation is the coordinator's. */
  lemma CoordinatorsDecide(log: seq<Event>, i: nat, j: nat)
    requires Replay(log).Live? && i < j < |log| && log[i].payload.CoordinationClaimed?
    ensures match log[j].payload
            case CoordinationClaimed(_) => false
            case PoolPublished(_, actor) => actor == Some(log[i].payload.coordinator)
            case OrderAssigned(_, actor) => actor == Some(log[i].payload.coordinator)
            case OrderCancelled(_, actor) => actor == Some(log[i].payload.coordinator)
            case _ => true
  {
    PrefixReplays(log, j);
    PrefixReplays(log, j + 1);
    assert log[..j + 1][..j] == log[..j];
    CoordinatorStays(log[..j], i);
  }

  lemma {:induction false} CoordinatorStays(log: seq<Event>, i: nat)
    requires Replay(log).Live? && i < |log| && log[i].payload.CoordinationClaimed?
    ensures Replay(log).view.coordinator == Some(log[i].payload.coordinator)
  {
    var n := |log| - 1;
    if i < n {
      PrefixReplays(log, n);
      CoordinatorStays(log[..n], i);
    }
  }

  /** A closing event is the last one of its log. */
  lemma {:induction false} ClosingIsLast(log: seq<Event>, i: nat)
    requires Replay(log).Live? && i < |log|
    requires Marks(log[i].payload, Completion) || Marks(log[i].payload, Cancellation)
    ensures i == |log| - 1
  {
    var n := |log| - 1;
    if i < n {
      assert log[..i + 2][..i + 1] == log[..i + 1] && log[..i + 1][..i] == log[..i];
      PrefixReplays(log, i + 1);
      PrefixReplays(log, i + 2);
    }
  }

  lemma {:induction false} PrefixReplays(log: seq<Event>, i: nat)
    requires Replay(log).Live? && 0 < i <= |log|
    ensures Replay(log[..i]).Live?
  {
    var n := |log| - 1;
    if i == |log| {
      assert log[..i] == log;
    } else {
      if n > 0 && Replay(log[..n]).Nothing? {
        NonemptyReplays(log[..n]);
      }
      PrefixReplays(log[..n], i);
      assert log[..n][..i] == log[..i];
    }
  }

  lemma NonemptyReplays(log: seq<Event>)
    requires log != []
    ensures !Replay(log).Nothing?
  {
  }

  /** A log that replays opens with its submission, which never recurs. */
  lemma {:induction false} SubmittedFirstAndOnce(log: seq<Event>, i: nat)
    requires Replay(log).Live? && i < |log|
    ensures log[i].payload.OrderSubmitted? <==> i == 0
  {
    PrefixReplays(log, i + 1);
    assert log[..i + 1][..i] == log[..i];
    if i > 0 {
      PrefixReplays(log, i);
    }
  }
}
