/** The values of the dispatch kernel: orders, tracking sessions and the events
    both aggregates record. Wall-clock stamps that no guard reads are left out;
    the capture time of a point, which a guard does read, is an integer. */
module Domain {
  import opened Prelude

  /** Organization id and aggregate id: the key of both in-memory stores. */
  type Key = (string, string)

  datatype PoolMode = Curated | FirstClaim

  datatype ResponseStatus = Interested | Selected | Rejected | Withdrawn

  datatype OrderStatus =
    | Submitted
    | PoolOpen
    | Assigned
    | Accepted
    | EnRoute
    | InProgress
    | Completed
    | Cancelled

  predicate Terminal(s: OrderStatus) {
    s == Completed || s == Cancelled
  }

  /** The statuses in which an assignee is occupied. */
  predicate Busy(s: OrderStatus) {
    s == Assigned || s == Accepted || s == EnRoute || s == InProgress
  }

  predicate Underway(s: OrderStatus) {
    s == EnRoute || s == InProgress
  }

  /** The statuses without an assignee. */
  predicate Open(s: OrderStatus) {
    s == Submitted || s == PoolOpen
  }

  datatype Evidence = Evidence(minimumPhotos: nat, comment: bool, signature: bool, customerCode: bool)

  datatype Report = Report(
    photoRefs: seq<string>,
    comment: Option<string>,
    signatureRef: Option<string>,
    customerCode: Option<string>)

  /** What a submission fixes for good. */
  datatype Intent = Intent(
    workType: string,
    source: string,
    requester: Option<string>,
    details: map<string, string>,
    evidence: Evidence)

  datatype Order = Order(
    org: string,
    id: string,
    number: string,
    intent: Intent,
    coordinator: Option<string>,
    status: OrderStatus,
    poolMode: Option<PoolMode>,
    assignee: Option<string>,
    responses: map<string, ResponseStatus>,
    report: Option<Report>,
    version: nat)
  {
    function Key(): Key { (org, id) }
  }

  datatype SessionStatus = Active | Finished | Aborted

  datatype LocationSource = Telegram | Max | Web | Mobile | Import

  datatype Point = Point(
    latitude: real,
    longitude: real,
    capturedAt: int,
    ingestedAt: int,
    source: LocationSource,
    accuracy: Option<real>,
    eventId: Option<string>)

  datatype Session = Session(
    org: string,
    id: string,
    orderId: string,
    executor: string,
    publicToken: Option<string>,
    locationToken: Option<string>,
    status: SessionStatus,
    points: seq<Point>,
    pointCount: nat,
    persisted: nat,
    version: nat)
  {
    function Key(): Key { (org, id) }
  }

  datatype Payload =
    | OrderSubmitted(number: string, origin: string, requester: Option<string>)
    | CoordinationClaimed(coordinator: string)
    | PoolPublished(mode: PoolMode, actor: Option<string>)
    | InterestRecorded(executor: string)
    | InterestWithdrawn(executor: string)
    | FirstClaimWon(executor: string)
    | OrderAssigned(executor: string, actor: Option<string>)
    | OrderAccepted(executor: string)
    | AssignmentRejected(executor: string)
    | TravelStarted(executor: string)
    | WorkStarted(executor: string)
    | OrderCompleted(executor: string, photoCount: nat)
    | OrderCancelled(reason: string, actor: Option<string>)
    | TrackingStarted
    | PointRecorded(capturedAt: int, source: LocationSource, eventId: Option<string>)
    | TrackingCompleted(pointCount: nat)
    | TrackingCancelled(reason: string)

  datatype Aggregate = OrderAggregate | SessionAggregate

  datatype Event = Event(aggregate: Aggregate, key: Key, version: nat, payload: Payload)
}
