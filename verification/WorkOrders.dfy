/** The work order aggregate: a specification of every command as a decision on
    the order's value, and the mutable class that carries it out. */
module WorkOrders {
  import opened Prelude
  import opened Domain

  datatype Command =
    | ClaimCoordination(coordinator: string)
    | PublishPool(mode: PoolMode, actor: Option<string>)
    | ExpressInterest(executor: string)
    | WithdrawInterest(executor: string)
    | ClaimFirst(executor: string)
    | Assign(executor: string, actor: Option<string>)
    | Accept(executor: string)
    | RejectAssignment(executor: string)
    | StartTravel(executor: string)
    | StartWork(executor: string)
    | Complete(executor: string, report: Report)
    | Cancel(reason: string, actor: Option<string>)

  /** The order after a command, and the event it records (none when the command changes nothing). */
  datatype Decision = Decision(order: Order, event: Option<Payload>)

  predicate Filled(s: Option<string>) {
    s.Some? && s.value != ""
  }

  /** The completion rules, as one condition on the report. */
  predicate MeetsEvidence(report: Report, rules: Evidence) {
    && |report.photoRefs| >= rules.minimumPhotos
    && (rules.comment ==> report.comment.Some? && !Blank(report.comment.value))
    && (rules.signature ==> Filled(report.signatureRef))
    && (rules.customerCode ==> Filled(report.customerCode))
  }

  predicate CoordinatorMayAct(o: Order, actor: Option<string>) {
    o.coordinator.Some? ==> actor == o.coordinator
  }

  predicate InPool(o: Order, mode: PoolMode) {
    o.status == PoolOpen && o.poolMode == Some(mode)
  }

  /** Every interested response settled in favour of one executor. */
  function Resolved(responses: map<string, ResponseStatus>, winner: string): map<string, ResponseStatus> {
    map e | e in responses ::
      if responses[e] != Interested then responses[e]
      else if e == winner then Selected
      else Rejected
  }

  function Changed(o: Order, p: Payload): Result<Decision> {
    Success(Decision(o.(version := o.version + 1), Some(p)))
  }

  /** What each command does to an order, or the error it raises instead. */
  function Decide(o: Order, c: Command): Result<Decision> {
    match c
    case ClaimCoordination(who) =>
      if Terminal(o.status) then Failure(InvalidTransition)
      else if who == "" then Failure(ValueError)
      else if o.coordinator == Some(who) then Success(Decision(o, None))
      else if o.coordinator.Some? then Failure(InvalidTransition)
      else Changed(o.(coordinator := Some(who)), CoordinationClaimed(who))
    case PublishPool(mode, actor) =>
      if o.status != Submitted || !CoordinatorMayAct(o, actor) then Failure(InvalidTransition)
      else Changed(o.(poolMode := Some(mode), status := PoolOpen), PoolPublished(mode, actor))
    case ExpressInterest(who) =>
      if !InPool(o, Curated) then Failure(InvalidTransition)
      else if who == "" then Failure(ValueError)
      else if who in o.responses && o.responses[who] == Interested then Success(Decision(o, None))
      else Changed(o.(responses := o.responses[who := Interested]), InterestRecorded(who))
    case WithdrawInterest(who) =>
      if !InPool(o, Curated) then Failure(InvalidTransition)
      else if who !in o.responses || o.responses[who] != Interested then Failure(InvalidTransition)
      else Changed(o.(responses := o.responses[who := Withdrawn]), InterestWithdrawn(who))
    case ClaimFirst(who) =>
      if !InPool(o, FirstClaim) then Failure(InvalidTransition)
      else if who == "" then Failure(ValueError)
      else Changed(o.(assignee := Some(who), status := Assigned, responses := o.responses[who := Selected]),
                   FirstClaimWon(who))
    case Assign(who, actor) =>
      if o.status != Submitted && o.status != PoolOpen then Failure(InvalidTransition)
      else if !CoordinatorMayAct(o, actor) then Failure(InvalidTransition)
      else if who == "" then Failure(ValueError)
      else
        var settled := if o.poolMode == Some(Curated) then Resolved(o.responses, who) else o.responses;
        Changed(o.(assignee := Some(who), status := Assigned, responses := settled), OrderAssigned(who, actor))
    case Accept(who) =>
      if o.status != Assigned || o.assignee != Some(who) then Failure(InvalidTransition)
      else Changed(o.(status := Accepted), OrderAccepted(who))
    case RejectAssignment(who) =>
      if o.status != Assigned || o.assignee != Some(who) then Failure(InvalidTransition)
      else
        var responses := if who in o.responses then o.responses[who := Withdrawn] else o.responses;
        Changed(o.(assignee := None, status := if o.poolMode.Some? then PoolOpen else Submitted,
                responses := responses), AssignmentRejected(who))
    case StartTravel(who) =>
      if o.assignee != Some(who) || o.status != Accepted then Failure(InvalidTransition)
      else Changed(o.(status := EnRoute), TravelStarted(who))
    case StartWork(who) =>
      if o.assignee != Some(who) || (o.status != Accepted && o.status != EnRoute) then Failure(InvalidTransition)
      else Changed(o.(status := InProgress), WorkStarted(who))
    case Complete(who, report) =>
      if o.assignee != Some(who) || o.status != InProgress then Failure(InvalidTransition)
      else if !MeetsEvidence(report, o.intent.evidence) then Failure(EvidenceMissing)
      else Changed(o.(report := Some(report), status := Completed), OrderCompleted(who, |report.photoRefs|))
    case Cancel(reason, actor) =>
      if Terminal(o.status) || !CoordinatorMayAct(o, actor) then Failure(InvalidTransition)
      else if Blank(reason) then Failure(ValueError)
      else Changed(o.(status := Cancelled), OrderCancelled(Strip(reason), actor))
  }

  /** A fresh order with the event of its submission. */
  function Submit(key: Key, number: string, intent: Intent): Result<Decision> {
    if key.1 == "" || number == "" || key.0 == "" || intent.workType == "" then Failure(ValueError)
    else
      var blank := Order(key.0, key.1, number, intent, None, Submitted, None, None, map[], None, 0);
      Changed(blank, OrderSubmitted(number, intent.source, intent.requester))
  }

  function OrderEvent(o: Order, p: Payload): Event {
    Event(OrderAggregate, o.Key(), o.version, p)
  }

  function Recorded(d: Decision): seq<Event> {
    match d.event case None => [] case Some(p) => [OrderEvent(d.order, p)]
  }

  /** What every reachable order satisfies, whichever commands it went through. */
  ghost predicate Sound(o: Order) {
    && o.org != "" && o.id != "" && o.version >= 1
    && (Open(o.status) ==> o.assignee.None?)
    && (Busy(o.status) || o.status == Completed ==> Filled(o.assignee))
    && (o.status == Submitted ==> o.poolMode.None?)
    && (o.status == PoolOpen ==> o.poolMode.Some?)
    && (o.status == Completed <==> o.report.Some?)
    && (o.report.Some? ==> MeetsEvidence(o.report.value, o.intent.evidence))
    && (forall e :: e in o.responses && o.responses[e] == Selected ==> o.assignee == Some(e))
    && (forall e :: e in o.responses && o.responses[e] == Interested ==>
          o.poolMode == Some(Curated) && (o.status == PoolOpen || o.status == Cancelled))
  }

  lemma SubmitIsSound(key: Key, number: string, intent: Intent)
    requires Submit(key, number, intent).Success?
    ensures Sound(Submit(key, number, intent).value.order)
  {
  }

  predicate AboutResponses(c: Command) {
    c.ExpressInterest? || c.WithdrawInterest? || c.ClaimFirst? || c.Assign? || c.RejectAssignment?
  }

  ghost predicate KeepsSound(o: Order, d: Decision) {
    && Sound(d.order)
    && d.order.Key() == o.Key() && d.order.number == o.number && d.order.intent == o.intent
    && d.order.version == o.version + |Recorded(d)|
    && (d.event.None? ==> d.order == o)
  }

  lemma ResponsesStaySound(o: Order, c: Command)
    requires Sound(o) && AboutResponses(c) && Decide(o, c).Success?
    ensures KeepsSound(o, Decide(o, c).value)
  {
    hide MeetsEvidence;
  }

  lemma StatusStaysSound(o: Order, c: Command)
    requires Sound(o) && !AboutResponses(c) && Decide(o, c).Success?
    ensures KeepsSound(o, Decide(o, c).value)
  {
    hide MeetsEvidence;
  }

  /** Every command keeps an order sound, keeps its identity and submission, and
      moves its version by exactly the number of events it records. */
  lemma DecideKeepsSound(o: Order, c: Command)
    requires Sound(o) && Decide(o, c).Success?
    ensures KeepsSound(o, Decide(o, c).value)
  {
    hide Decide;
    if AboutResponses(c) { ResponsesStaySound(o, c); } else { StatusStaysSound(o, c); }
  }

  /** The aggregate as the program mutates it. */
  class WorkOrder {
    const org: string
    const id: string
    const number: string
    const intent: Intent
    var coordinator: Option<string>
    var status: OrderStatus
    var poolMode: Option<PoolMode>
    var assignee: Option<string>
    var responses: map<string, ResponseStatus>
    var report: Option<Report>
    var version: nat
    var events: seq<Event>

    function State(): Order
      reads this
    {
      Order(org, id, number, intent, coordinator, status, poolMode, assignee, responses, report, version)
    }

    /** A command ran: it raised and changed nothing, or it did what was decided and buffered the event. */
    ghost predicate Obeyed(c: Command, r: Result<()>, before: Order, buffered: seq<Event>)
      reads this
    {
      match Decide(before, c)
      case Failure(e) => r == Failure(e) && State() == before && events == buffered
      case Success(d) => r == Success(()) && State() == d.order && events == buffered + Recorded(d)
    }

    /** A copy of a stored order, with an empty event buffer. */
    constructor Restore(o: Order)
      ensures State() == o && events == []
    {
      org, id, number, intent := o.org, o.id, o.number, o.intent;
      coordinator, status, poolMode, assignee := o.coordinator, o.status, o.poolMode, o.assignee;
      responses, report, version, events := o.responses, o.report, o.version, [];
    }

    static method Create(key: Key, number: string, intent: Intent) returns (r: Result<WorkOrder>)
      ensures match Submit(key, number, intent)
              case Failure(e) => r == Failure(e)
              case Success(d) => r.Success? && fresh(r.value) && r.value.State() == d.order && r.value.events == Recorded(d)
    {
      if key.1 == "" || number == "" || key.0 == "" || intent.workType == "" {
        return Failure(ValueError);
      }
      var order := new WorkOrder.Restore(
        Order(key.0, key.1, number, intent, None, Submitted, None, None, map[], None, 0));
      order.Record(OrderSubmitted(number, intent.source, intent.requester));
      return Success(order);
    }

    method Record(p: Payload)
      modifies this`version, this`events
      ensures version == old(version) + 1
      ensures events == old(events) + [OrderEvent(State(), p)]
    {
      version := version + 1;
      events := events + [Event(OrderAggregate, (org, id), version, p)];
    }

    method PullEvents() returns (pulled: seq<Event>)
      modifies this`events
      ensures pulled == old(events) && events == []
    {
      pulled := events;
      events := [];
    }

    method ClaimCoordination(who: string) returns (r: Result<()>)
      modifies this
      ensures Obeyed(Command.ClaimCoordination(who), r, old(State()), old(events))
    {
      if Terminal(status) { return Failure(InvalidTransition); }
      if who == "" { return Failure(ValueError); }
      if coordinator == Some(who) { return Success(()); }
      if coordinator.Some? { return Failure(InvalidTransition); }
      coordinator := Some(who);
      Record(CoordinationClaimed(who));
      return Success(());
    }

    method PublishPool(mode: PoolMode, actor: Option<string>) returns (r: Result<()>)
      modifies this
      ensures Obeyed(Command.PublishPool(mode, actor), r, old(State()), old(events))
    {
      if status != Submitted { return Failure(InvalidTransition); }
      if coordinator.Some? && actor != coordinator { return Failure(InvalidTransition); }
      poolMode := Some(mode);
      status := PoolOpen;
      Record(PoolPublished(mode, actor));
      return Success(());
    }

    method ExpressInterest(who: string) returns (r: Result<()>)
      modifies this
      ensures Obeyed(Command.ExpressInterest(who), r, old(State()), old(events))
    {
      if status != PoolOpen || poolMode != Some(Curated) { return Failure(InvalidTransition); }
      if who == "" { return Failure(ValueError); }
      if who in responses && responses[who] == Interested { return Success(()); }
      responses := responses[who := Interested];
      Record(InterestRecorded(who));
      return Success(());
    }

    method WithdrawInterest(who: string) returns (r: Result<()>)
      modifies this
      ensures Obeyed(Command.WithdrawInterest(who), r, old(State()), old(events))
    {
      if status != PoolOpen || poolMode != Some(Curated) { return Failure(InvalidTransition); }
      if who !in responses || responses[who] != Interested { return Failure(InvalidTransition); }
      responses := responses[who := Withdrawn];
      Record(InterestWithdrawn(who));
      return Success(());
    }

    method ClaimFirst(who: string) returns (r: Result<()>)
      modifies this
      ensures Obeyed(Command.ClaimFirst(who), r, old(State()), old(events))
    {
      if status != PoolOpen || poolMode != Some(FirstClaim) { return Failure(InvalidTransition); }
      if who == "" { return Failure(ValueError); }
      assignee := Some(who);
      status := Assigned;
      responses := responses[who := Selected];
      Record(FirstClaimWon(who));
      return Success(());
    }

    method Assign(who: string, actor: Option<string>) returns (r: Result<()>)
      modifies this
      ensures Obeyed(Command.Assign(who, actor), r, old(State()), old(events))
    {
      if status != Submitted && status != PoolOpen { return Failure(InvalidTransition); }
      if coordinator.Some? && actor != coordinator { return Failure(InvalidTransition); }
      if who == "" { return Failure(ValueError); }
      assignee := Some(who);
      status := Assigned;
      if poolMode == Some(Curated) {
        ResolveCuratedResponses(who);
      }
      Record(OrderAssigned(who, actor));
      return Success(());
    }

    method ResolveCuratedResponses(winner: string)
      modifies this`responses
      ensures responses == Resolved(old(responses), winner)
    {
      var snapshot := responses;
      var todo := snapshot.Keys;
      while todo != {}
        invariant todo <= snapshot.Keys == responses.Keys
        invariant forall e :: e in todo ==> responses[e] == snapshot[e]
        invariant forall e :: e in snapshot && e !in todo ==> responses[e] == Resolved(snapshot, winner)[e]
        decreases todo
      {
        var e :| e in todo;
        todo := todo - {e};
        if snapshot[e] == Interested {
          responses := responses[e := if e == winner then Selected else Rejected];
        }
      }
    }

    method Accept(who: string) returns (r: Result<()>)
      modifies this
      ensures Obeyed(Command.Accept(who), r, old(State()), old(events))
    {
      if status != Assigned { return Failure(InvalidTransition); }
      if assignee != Some(who) { return Failure(InvalidTransition); }
      status := Accepted;
      Record(OrderAccepted(who));
      return Success(());
    }

    method RejectAssignment(who: string) returns (r: Result<()>)
      modifies this
      ensures Obeyed(Command.RejectAssignment(who), r, old(State()), old(events))
    {
      if status != Assigned { return Failure(InvalidTransition); }
      if assignee != Some(who) { return Failure(InvalidTransition); }
      if who in responses {
        responses := responses[who := Withdrawn];
      }
      assignee := None;
      status := if poolMode.Some? then PoolOpen else Submitted;
      Record(AssignmentRejected(who));
      return Success(());
    }

    method StartTravel(who: string) returns (r: Result<()>)
      modifies this
      ensures Obeyed(Command.StartTravel(who), r, old(State()), old(events))
    {
      if assignee != Some(who) { return Failure(InvalidTransition); }
      if status != Accepted { return Failure(InvalidTransition); }
      status := EnRoute;
      Record(TravelStarted(who));
      return Success(());
    }

    method StartWork(who: string) returns (r: Result<()>)
      modifies this
      ensures Obeyed(Command.StartWork(who), r, old(State()), old(events))
    {
      if assignee != Some(who) { return Failure(InvalidTransition); }
      if status != Accepted && status != EnRoute { return Failure(InvalidTransition); }
      status := InProgress;
      Record(WorkStarted(who));
      return Success(());
    }

    method Complete(who: string, done: Report) returns (r: Result<()>)
      modifies this
      ensures Obeyed(Command.Complete(who, done), r, old(State()), old(events))
    {
      if assignee != Some(who) { return Failure(InvalidTransition); }
      if status != InProgress { return Failure(InvalidTransition); }
      var complete := ValidateReport(done);
      if !complete { return Failure(EvidenceMissing); }
      report := Some(done);
      status := Completed;
      Record(OrderCompleted(who, |done.photoRefs|));
      return Success(());
    }

    /** Collects the unmet rules one by one; none is left exactly when the evidence is met. */
    method ValidateReport(done: Report) returns (complete: bool)
      ensures complete <==> MeetsEvidence(done, intent.evidence)
    {
      var missing: seq<string> := [];
      var rules := intent.evidence;
      if |done.photoRefs| < rules.minimumPhotos { missing := missing + ["photos"]; }
      if rules.comment && !(done.comment.Some? && !Blank(done.comment.value)) { missing := missing + ["comment"]; }
      if rules.signature && !Filled(done.signatureRef) { missing := missing + ["signature"]; }
      if rules.customerCode && !Filled(done.customerCode) { missing := missing + ["customer code"]; }
      return missing == [];
    }

    method Cancel(reason: string, actor: Option<string>) returns (r: Result<()>)
      modifies this
      ensures Obeyed(Command.Cancel(reason, actor), r, old(State()), old(events))
    {
      if Terminal(status) { return Failure(InvalidTransition); }
      if coordinator.Some? && actor != coordinator { return Failure(InvalidTransition); }
      if Blank(reason) { return Failure(ValueError); }
      status := Cancelled;
      Record(OrderCancelled(Strip(reason), actor));
      return Success(());
    }
  }
}
