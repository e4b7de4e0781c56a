/** The notification projector: one domain event becomes a set of outbound messages
    with deduplication keys, inserted in the transaction that marks the event. */
module Projector {
  import opened Prelude
  import opened Domain

  datatype Provider = TelegramBot | MaxBot

  function Name(p: Provider): string {
    match p case TelegramBot => "telegram" case MaxBot => "max"
  }

  /** An external identity; the pair is unique within an organization. */
  datatype Recipient = Recipient(provider: Provider, user: string)

  /** A button opens a callback for a role, a page with a capability token, or asks for the position. */
  datatype Button =
    | Press(action: string, executor: Option<string>, role: string)
    | OpenMap(publicToken: string)
    | SendGps(locationToken: string)
    | ShareLocation

  /** Who is told in which role, under which purpose, with which buttons. */
  datatype Plan = Plan(actors: seq<string>, roles: seq<string>, purpose: string, delivery: string, buttons: seq<Button>)

  datatype Message = Message(key: string, plan: Plan, recipient: Recipient)

  /** What a projection reads of the order and its active tracking session. */
  datatype Snapshot = Snapshot(
    assignee: Option<string>,
    coordinator: Option<string>,
    requester: Option<string>,
    hasBaseUrl: bool,
    publicToken: Option<string>,
    locationToken: Option<string>)

  function Present(s: Option<string>): seq<string> {
    if s.Some? && s.value != "" then [s.value] else []
  }

  function WhenAny(actors: seq<string>, purpose: string, delivery: string, buttons: seq<Button>): seq<Plan> {
    if actors == [] then [] else [Plan(actors, [], purpose, delivery, buttons)]
  }

  function ForMaster(action: string): Button {
    Press(action, None, "master")
  }

  /** The plans of one event, by a case split on the event and the current order. */
  function Plans(p: Payload, s: Snapshot): seq<Plan> {
    var assignee, coordinators, requester := Present(s.assignee), Present(s.coordinator), Present(s.requester);
    var fallback := if coordinators == [] then ["operator"] else [];
    match p
    case OrderSubmitted(_, _, _) => [Plan([], ["operator"], "submitted", "operator", [Press("pool_publish", None, "operator")])]
    case CoordinationClaimed(who) => [Plan(if who == "" then [] else [who], [], "coordination_claimed", "operator", [])]
    case PoolPublished(mode, _) =>
      [Plan([], ["master"], "pool", "master", [ForMaster(if mode == Curated then "pool_interest" else "pool_claim")])]
    case InterestRecorded(who) =>
      [Plan(coordinators, fallback, "interest:" + who, "operator", [Press("assign", Some(who), "operator")])]
    case FirstClaimWon(_) => AssignmentPlans(assignee, coordinators)
    case OrderAssigned(_, _) => AssignmentPlans(assignee, coordinators)
    case OrderAccepted(_) =>
      [Plan(assignee, [], "executor_accepted", "master", [ForMaster("start_travel"), ForMaster("start_work")])]
      + WhenAny(coordinators, "coordinator_accepted", "operator", [])
    case TravelStarted(_) =>
      [Plan(assignee, [], "travel", "master", [ForMaster("start_work")]), Plan(assignee, [], "travel:location", "master", [ShareLocation])]
      + WhenAny(coordinators, "coordinator_travel", "operator", [])
      + (if s.hasBaseUrl && Present(s.publicToken) != [] then WhenAny(requester, "travel:client", "client", [OpenMap(s.publicToken.value)]) else [])
      + (if s.hasBaseUrl && Present(s.locationToken) != [] then
           WhenAny(assignee, "travel:browser_location", "master", [SendGps(s.locationToken.value)])
         else [])
    case WorkStarted(_) => [Plan(assignee, [], "work_started", "master", [ForMaster("submit_report")])]
    case OrderCompleted(_, _) =>
      var plans := WhenAny(coordinators, "completed:operator", "operator", []) + WhenAny(requester, "completed:client", "client", []);
      if plans == [] then [Plan([], ["operator"], "completed:operator", "operator", [])] else plans
    case AssignmentRejected(_) => [Plan(coordinators, fallback, "rejected", "operator", [])]
    case OrderCancelled(_, _) =>
      WhenAny(assignee, "cancelled:master", "master", []) + WhenAny(requester, "cancelled:client", "client", [])
    case _ => []
  }

  function AssignmentPlans(assignee: seq<string>, coordinators: seq<string>): seq<Plan> {
    if assignee == [] then []
    else
      [Plan(assignee, [], "assignment", "master", [ForMaster("accept"), ForMaster("reject")])]
      + WhenAny(coordinators, "coordinator_assignment", "operator", [])
  }

  /** The recipient part of a key. */
  function Address(r: Recipient): string {
    ":" + Name(r.provider) + ":" + r.user
  }

  function KeyOf(event: string, purpose: string, r: Recipient): string {
    event + ":" + purpose + Address(r)
  }

  // Keys do not collide ------------------------------------------------------------------

  /** `q` does not continue `p` with a colon and the first letter of a provider. */
  predicate Unconfusable(p: string, q: string) {
    |p| < |q| && q[..|p|] == p && q[|p|] == ':' ==> |q| > |p| + 1 && q[|p| + 1] != 't' && q[|p| + 1] != 'm'
  }

  predicate Apart(p: string, q: string) {
    p != q && Unconfusable(p, q) && Unconfusable(q, p)
  }

  lemma PrefixesAgree(p: string, q: string, x: string, y: string)
    requires p + x == q + y && |p| <= |q|
    ensures q[..|p|] == p && x == q[|p|..] + y
  {
    assert (p + x)[..|p|] == p;
    assert (q + y)[..|p|] == q[..|p|];
    assert (p + x)[|p|..] == x;
    assert (q + y)[|p|..] == q[|p|..] + y;
  }

  lemma AddressStarts(r: Recipient)
    ensures |Address(r)| > 2 && Address(r)[0] == ':' && Address(r)[1] == if r.provider.TelegramBot? then 't' else 'm'
    ensures Address(r) == ":" + Name(r.provider) + ":" + r.user
  {
  }

  lemma AddressesDiffer(r: Recipient, s: Recipient)
    requires Address(r) == Address(s)
    ensures r == s
  {
    AddressStarts(r);
    AddressStarts(s);
    var x := ":" + Name(r.provider) + ":";
    PrefixesAgree(x, x, r.user, s.user);
    assert x[|x|..] + s.user == s.user;
  }

  lemma PurposesDecide(p: string, q: string, r: Recipient, s: Recipient)
    requires |p| <= |q| && (p == q || Apart(p, q)) && p + Address(r) == q + Address(s)
    ensures p == q && r == s
  {
    AddressStarts(r);
    AddressStarts(s);
    hide Address;
    PrefixesAgree(p, q, Address(r), Address(s));
    if |p| == |q| {
      assert q[|p|..] + Address(s) == Address(s);
      AddressesDiffer(r, s);
    }
  }

  lemma KeysDecide(event: string, p: string, q: string, r: Recipient, s: Recipient)
    requires (p == q || Apart(p, q)) && KeyOf(event, p, r) == KeyOf(event, q, s)
    ensures p == q && r == s
  {
    hide Address;
    hide Unconfusable;
    var e := event + ":";
    assert KeyOf(event, p, r) == e + (p + Address(r)) && KeyOf(event, q, s) == e + (q + Address(s));
    PrefixesAgree(e, e, p + Address(r), q + Address(s));
    assert e[|e|..] + (q + Address(s)) == q + Address(s);
    if |p| <= |q| { PurposesDecide(p, q, r, s); } else { PurposesDecide(q, p, s, r); }
  }

  lemma ApartAt(p: string, q: string, i: nat)
    requires i < |p| && i < |q| && p[i] != q[i]
    ensures Apart(p, q)
  {
  }

  lemma ApartTail(p: string, q: string)
    requires |p| + 1 < |q| && q[..|p|] == p && q[|p| + 1] != 't' && q[|p| + 1] != 'm'
    ensures Apart(p, q)
  {
  }

  /** The five purposes of a departure. */
  lemma TravelPurposesApart(i: nat, j: nat)
    requires i < 5 && j < 5 && i != j
    ensures var all := ["travel", "travel:location", "coordinator_travel", "travel:client", "travel:browser_location"];
            Apart(all[i], all[j])
  {
    ApartTail("travel", "travel:location");
    ApartTail("travel", "travel:client");
    ApartTail("travel", "travel:browser_location");
    ApartAt("travel", "coordinator_travel", 0);
    ApartAt("travel:location", "coordinator_travel", 0);
    ApartAt("travel:client", "coordinator_travel", 0);
    ApartAt("travel:browser_location", "coordinator_travel", 0);
    ApartAt("travel:location", "travel:client", 7);
    ApartAt("travel:location", "travel:browser_location", 7);
    ApartAt("travel:client", "travel:browser_location", 7);
  }

  lemma TravelApart(p: Payload, s: Snapshot, i: nat, j: nat)
    requires p.TravelStarted? && i < j < |Plans(p, s)|
    ensures Apart(Plans(p, s)[i].purpose, Plans(p, s)[j].purpose)
  {
    hide Apart;
    TravelPurposesApart(0, 1); TravelPurposesApart(0, 2); TravelPurposesApart(0, 3); TravelPurposesApart(0, 4);
    TravelPurposesApart(1, 2); TravelPurposesApart(1, 3); TravelPurposesApart(1, 4);
    TravelPurposesApart(2, 3); TravelPurposesApart(2, 4); TravelPurposesApart(3, 4);
  }

  lemma PurposesApart(p: Payload, s: Snapshot, i: nat, j: nat)
    requires i < j < |Plans(p, s)|
    ensures Apart(Plans(p, s)[i].purpose, Plans(p, s)[j].purpose)
  {
    hide Apart;
    if p.TravelStarted? { TravelApart(p, s, i, j); }
    ApartAt("assignment", "coordinator_assignment", 0);
    ApartAt("executor_accepted", "coordinator_accepted", 0);
    ApartAt("completed:operator", "completed:client", 10);
    ApartAt("cancelled:master", "cancelled:client", 10);
  }

  /** Within one event, two different pairs of plan and recipient never share a key,
      whatever colons the purposes, executor ids and user ids contain. */
  lemma KeysAreDistinct(event: string, p: Payload, snap: Snapshot, i: nat, j: nat, r: Recipient, s: Recipient)
    requires i < |Plans(p, snap)| && j < |Plans(p, snap)|
    requires KeyOf(event, Plans(p, snap)[i].purpose, r) == KeyOf(event, Plans(p, snap)[j].purpose, s)
    ensures i == j && r == s
  {
    if i < j { PurposesApart(p, snap, i, j); }
    if j < i { PurposesApart(p, snap, j, i); }
    KeysDecide(event, Plans(p, snap)[i].purpose, Plans(p, snap)[j].purpose, r, s);
  }

  /** Event ids all have one length, so keys of different events differ. */
  lemma EventsDoNotCollide(e: string, f: string, p: string, q: string, r: Recipient, s: Recipient)
    requires |e| == |f| && KeyOf(e, p, r) == KeyOf(f, q, s)
    ensures e == f
  {
    assert KeyOf(e, p, r) == e + (":" + p + Address(r)) && KeyOf(f, q, s) == f + (":" + q + Address(s));
    PrefixesAgree(e, f, ":" + p + Address(r), ":" + q + Address(s));
    assert f[..|e|] == f;
  }

  // One projection -------------------------------------------------------------------------

  /** An external identity with its actor and the actor's active roles. */
  datatype Listing = Listing(recipient: Recipient, actor: string, active: bool, roles: set<string>)

  /** The identities in the order of the query; no external identity is listed twice. */
  type Directory = seq<Listing>

  /** The actor is named by the plan or has one of its roles, and serves in the role of the delivery. */
  predicate Receives(x: Listing, plan: Plan) {
    && (plan.actors != [] || plan.roles != []) && x.active
    && (plan.delivery == "" || plan.delivery in x.roles)
    && (x.actor in plan.actors || exists role :: role in plan.roles && role in x.roles)
  }

  function Lookup(directory: Directory, plan: Plan): seq<Recipient> {
    if directory == [] then []
    else
      var n := |directory| - 1;
      Lookup(directory[..n], plan) + (if Receives(directory[n], plan) then [directory[n].recipient] else [])
  }

  predicate WellListed(directory: Directory) {
    forall i, j :: 0 <= i < j < |directory| ==> directory[i].recipient != directory[j].recipient
  }

  lemma {:induction false} LookupFinds(directory: Directory, plan: Plan, r: Recipient)
    ensures r in Lookup(directory, plan) <==> exists i :: 0 <= i < |directory| && directory[i].recipient == r && Receives(directory[i], plan)
  {
    hide Receives;
    if directory != [] {
      var n := |directory| - 1;
      LookupFinds(directory[..n], plan, r);
      if r in Lookup(directory[..n], plan) {
        var i :| 0 <= i < n && directory[..n][i].recipient == r && Receives(directory[..n][i], plan);
        assert directory[i].recipient == r && Receives(directory[i], plan);
      }
    }
  }

  lemma {:induction false} LookupRepeatsNothing(directory: Directory, plan: Plan)
    requires WellListed(directory)
    ensures NoRepeats(Lookup(directory, plan))
  {
    hide Receives;
    if directory != [] {
      var n := |directory| - 1;
      LookupRepeatsNothing(directory[..n], plan);
      LookupFinds(directory[..n], plan, directory[n].recipient);
    }
  }

  function MessagesOf(event: string, plan: Plan, recipients: seq<Recipient>): seq<Message> {
    if recipients == [] then []
    else
      var n := |recipients| - 1;
      MessagesOf(event, plan, recipients[..n]) + [Message(KeyOf(event, plan.purpose, recipients[n]), plan, recipients[n])]
  }

  function AllMessages(event: string, plans: seq<Plan>, directory: Directory): seq<Message> {
    if plans == [] then []
    else
      var n := |plans| - 1;
      AllMessages(event, plans[..n], directory) + MessagesOf(event, plans[n], Lookup(directory, plans[n]))
  }

  /** `INSERT ... ON CONFLICT DO NOTHING`, message by message. */
  function Inserted(outbound: map<string, Message>, messages: seq<Message>): map<string, Message> {
    if messages == [] then outbound
    else
      var n := |messages| - 1;
      var before, m := Inserted(outbound, messages[..n]), messages[n];
      if m.key in before then before else before[m.key := m]
  }

  lemma {:induction false} InsertedAppend(outbound: map<string, Message>, a: seq<Message>, b: seq<Message>)
    ensures Inserted(outbound, a + b) == Inserted(Inserted(outbound, a), b)
  {
    if b == [] {
      assert a + b == a;
    } else {
      assert (a + b)[..|a + b| - 1] == a + b[..|b| - 1];
      InsertedAppend(outbound, a, b[..|b| - 1]);
    }
  }

  lemma InsertedNone(outbound: map<string, Message>)
    ensures Inserted(outbound, []) == outbound
  {
  }

  lemma InsertedSnoc(outbound: map<string, Message>, messages: seq<Message>, m: Message)
    ensures var before := Inserted(outbound, messages);
            Inserted(outbound, messages + [m]) == if m.key in before then before else before[m.key := m]
  {
    assert (messages + [m])[..|messages|] == messages;
  }

  datatype EventStatus = Waiting | Processing | Delivered | Dead

  class NotificationProjector {
    var outbound: map<string, Message>
    var status: map<string, EventStatus>

    constructor ()
      ensures outbound == map[] && status == map[]
    {
      outbound, status := map[], map[];
    }

    /** Plans, recipients, inserts and the mark of the event, in one transaction. */
    method Project(event: string, p: Payload, s: Snapshot, directory: Directory) returns (inserted: nat)
      modifies this
      ensures outbound == Inserted(old(outbound), AllMessages(event, Plans(p, s), directory))
      ensures |outbound| == |old(outbound)| + inserted
      ensures status == if event in old(status) && old(status)[event] == Processing then old(status)[event := Delivered] else old(status)
    {
      hide Plans;
      hide MessagesOf;
      var plans := Plans(p, s);
      inserted := 0;
      var i := 0;
      while i < |plans|
        invariant 0 <= i <= |plans| && status == old(status)
        invariant outbound == Inserted(old(outbound), AllMessages(event, plans[..i], directory))
        invariant |outbound| == |old(outbound)| + inserted
      {
        var added := ProjectPlan(event, plans[i], Lookup(directory, plans[i]));
        inserted := inserted + added;
        assert plans[..i + 1][..i] == plans[..i];
        InsertedAppend(old(outbound), AllMessages(event, plans[..i], directory), MessagesOf(event, plans[i], Lookup(directory, plans[i])));
        i := i + 1;
      }
      assert plans[..i] == plans;
      if event in status && status[event] == Processing { status := status[event := Delivered]; }
    }

    method ProjectPlan(event: string, plan: Plan, recipients: seq<Recipient>) returns (inserted: nat)
      modifies this`outbound
      ensures outbound == Inserted(old(outbound), MessagesOf(event, plan, recipients))
      ensures |outbound| == |old(outbound)| + inserted
    {
      hide KeyOf;
      hide Inserted;
      inserted := 0;
      var i := 0;
      assert Inserted(outbound, []) == outbound by { InsertedNone(outbound); }
      while i < |recipients|
        invariant 0 <= i <= |recipients|
        invariant outbound == Inserted(old(outbound), MessagesOf(event, plan, recipients[..i]))
        invariant |outbound| == |old(outbound)| + inserted
      {
        var m := Message(KeyOf(event, plan.purpose, recipients[i]), plan, recipients[i]);
        assert recipients[..i + 1][..i] == recipients[..i];
        InsertedSnoc(old(outbound), MessagesOf(event, plan, recipients[..i]), m);
        if m.key !in outbound {
          outbound := outbound[m.key := m];
          inserted := inserted + 1;
        }
        i := i + 1;
      }
      assert recipients[..i] == recipients;
    }
  }

  // What a projection enqueues ---------------------------------------------------------------

  ghost predicate DistinctKeys(messages: seq<Message>) {
    forall i, j :: 0 <= i < j < |messages| ==> messages[i].key != messages[j].key
  }

  /** Messages of distinct plans, or of one plan to distinct recipients. */
  ghost predicate FromPlan(event: string, plan: Plan, m: Message) {
    m.plan == plan && m.key == KeyOf(event, plan.purpose, m.recipient)
  }

  lemma {:induction false} MessagesOfPlan(event: string, plan: Plan, recipients: seq<Recipient>)
    requires NoRepeats(recipients)
    ensures |MessagesOf(event, plan, recipients)| == |recipients|
    ensures forall i :: 0 <= i < |recipients| ==>
              FromPlan(event, plan, MessagesOf(event, plan, recipients)[i]) && MessagesOf(event, plan, recipients)[i].recipient == recipients[i]
    ensures DistinctKeys(MessagesOf(event, plan, recipients))
  {
    if recipients != [] {
      var n := |recipients| - 1;
      MessagesOfPlan(event, plan, recipients[..n]);
      forall i | 0 <= i < n ensures KeyOf(event, plan.purpose, recipients[i]) != KeyOf(event, plan.purpose, recipients[n]) {
        if KeyOf(event, plan.purpose, recipients[i]) == KeyOf(event, plan.purpose, recipients[n]) {
          KeysDecide(event, plan.purpose, plan.purpose, recipients[i], recipients[n]);
        }
      }
    }
  }

  ghost predicate PlansApart(plans: seq<Plan>) {
    forall i, j :: 0 <= i < j < |plans| ==> Apart(plans[i].purpose, plans[j].purpose)
  }

  lemma KeysOfApartPlans(event: string, p: Plan, q: Plan, x: Message, y: Message)
    requires Apart(p.purpose, q.purpose) && FromPlan(event, p, x) && FromPlan(event, q, y)
    ensures x.key != y.key
  {
    if x.key == y.key { KeysDecide(event, p.purpose, q.purpose, x.recipient, y.recipient); }
  }

  ghost predicate Addressed(event: string, plans: seq<Plan>, directory: Directory, m: Message) {
    exists i :: 0 <= i < |plans| && FromPlan(event, plans[i], m) && m.recipient in Lookup(directory, plans[i])
  }

  lemma {:induction false} MessagesAreAddressed(event: string, plans: seq<Plan>, directory: Directory)
    requires WellListed(directory)
    ensures forall m :: m in AllMessages(event, plans, directory) ==> Addressed(event, plans, directory, m)
  {
    hide FromPlan;
    hide NoRepeats;
    if plans != [] {
      var n := |plans| - 1;
      var last := MessagesOf(event, plans[n], Lookup(directory, plans[n]));
      MessagesAreAddressed(event, plans[..n], directory);
      LookupRepeatsNothing(directory, plans[n]);
      MessagesOfPlan(event, plans[n], Lookup(directory, plans[n]));
      forall m | m in AllMessages(event, plans[..n], directory) + last ensures Addressed(event, plans, directory, m) {
        if m in last {
          var j :| 0 <= j < |last| && last[j] == m;
          assert FromPlan(event, plans[n], m) && m.recipient == Lookup(directory, plans[n])[j];
        } else {
          var i :| 0 <= i < n && FromPlan(event, plans[..n][i], m) && m.recipient in Lookup(directory, plans[..n][i]);
          assert plans[..n][i] == plans[i];
        }
      }
    }
  }

  lemma {:induction false} NobodyIsMissed(event: string, plans: seq<Plan>, directory: Directory, i: nat, r: Recipient)
    requires i < |plans| && r in Lookup(directory, plans[i]) && WellListed(directory)
    ensures Message(KeyOf(event, plans[i].purpose, r), plans[i], r) in AllMessages(event, plans, directory)
  {
    hide Lookup;
    hide WellListed;
    hide MessagesOf;
    hide KeyOf;
    hide NoRepeats;
    var n := |plans| - 1;
    if i < n {
      NobodyIsMissed(event, plans[..n], directory, i, r);
    } else {
      var last := MessagesOf(event, plans[n], Lookup(directory, plans[n]));
      LookupRepeatsNothing(directory, plans[n]);
      MessagesOfPlan(event, plans[n], Lookup(directory, plans[n]));
      var j :| 0 <= j < |Lookup(directory, plans[n])| && Lookup(directory, plans[n])[j] == r;
      assert last[j] in last && FromPlan(event, plans[n], last[j]);
    }
  }

  lemma {:induction false} MessagesAreDistinct(event: string, plans: seq<Plan>, directory: Directory)
    requires PlansApart(plans) && WellListed(directory)
    ensures DistinctKeys(AllMessages(event, plans, directory))
  {
    hide Lookup;
    hide WellListed;
    hide MessagesOf;
    hide Apart;
    hide NoRepeats;
    if plans != [] {
      var n := |plans| - 1;
      var before, last := AllMessages(event, plans[..n], directory), MessagesOf(event, plans[n], Lookup(directory, plans[n]));
      MessagesAreDistinct(event, plans[..n], directory);
      MessagesAreAddressed(event, plans[..n], directory);
      LookupRepeatsNothing(directory, plans[n]);
      MessagesOfPlan(event, plans[n], Lookup(directory, plans[n]));
      hide FromPlan;
      forall x, y | x in before && y in last ensures x.key != y.key {
        assert Addressed(event, plans[..n], directory, x);
        var i :| 0 <= i < n && FromPlan(event, plans[..n][i], x) && x.recipient in Lookup(directory, plans[..n][i]);
        var j :| 0 <= j < |last| && last[j] == y;
        assert FromPlan(event, plans[n], last[j]);
        KeysOfApartPlans(event, plans[i], plans[n], x, y);
      }
    }
  }

  ghost predicate AllStored(outbound: map<string, Message>, messages: seq<Message>) {
    forall i :: 0 <= i < |messages| ==> messages[i].key in outbound && outbound[messages[i].key] == messages[i]
  }

  lemma StoredOnceMore(outbound: map<string, Message>, messages: seq<Message>, m: Message)
    requires AllStored(outbound, messages) && m.key !in outbound
    ensures AllStored(outbound[m.key := m], messages + [m])
  {
  }

  /** Inserting messages with distinct keys, none of them taken, stores every one verbatim. */
  lemma {:induction false} FreshInsertsAll(outbound: map<string, Message>, messages: seq<Message>)
    requires DistinctKeys(messages) && forall i :: 0 <= i < |messages| ==> messages[i].key !in outbound
    ensures AllStored(Inserted(outbound, messages), messages)
    ensures |Inserted(outbound, messages)| == |outbound| + |messages|
  {
    hide Inserted;
    if messages == [] {
      InsertedNone(outbound);
    } else {
      var n := |messages| - 1;
      var before, m := Inserted(outbound, messages[..n]), messages[n];
      FreshInsertsAll(outbound, messages[..n]);
      InsertedKeeps(outbound, messages[..n]);
      assert m.key !in before by {
        forall i | 0 <= i < n ensures messages[..n][i].key != m.key { assert messages[i].key != m.key; }
      }
      assert messages == messages[..n] + [m];
      InsertedSnoc(outbound, messages[..n], m);
      StoredOnceMore(before, messages[..n], m);
    }
  }

  lemma {:induction false} InsertedKeeps(outbound: map<string, Message>, messages: seq<Message>)
    ensures forall k :: k in outbound ==> k in Inserted(outbound, messages) && Inserted(outbound, messages)[k] == outbound[k]
    ensures forall k :: k in Inserted(outbound, messages) ==> k in outbound || exists i :: 0 <= i < |messages| && messages[i].key == k
  {
    if messages != [] {
      var n := |messages| - 1;
      InsertedKeeps(outbound, messages[..n]);
      forall k | k in Inserted(outbound, messages) && k !in outbound
        ensures exists i :: 0 <= i < |messages| && messages[i].key == k
      {
        if k != messages[n].key {
          var i :| 0 <= i < n && messages[..n][i].key == k;
          assert messages[i].key == k;
        }
      }
    }
  }

  // Runs -----------------------------------------------------------------------------------

  const ID_LENGTH := 36

  /** An event id is a UUID written in lower-case hexadecimal with dashes. */
  predicate IsEventId(e: string) {
    |e| == ID_LENGTH && forall i :: 0 <= i < ID_LENGTH ==> e[i] == '-' || '0' <= e[i] <= '9' || 'a' <= e[i] <= 'f'
  }

  /** The processor's replies share the outbound table; their keys do not start with an event id. */
  predicate Foreign(key: string) {
    !(|key| >= ID_LENGTH && IsEventId(key[..ID_LENGTH]))
  }

  lemma RepliesAreForeign(rest: string)
    ensures Foreign("inbox:" + rest)
  {
    var key := "inbox:" + rest;
    if |key| >= ID_LENGTH { assert key[..ID_LENGTH][0] == 'i'; }
  }

  datatype World = World(
    payloads: map<string, Payload>,
    status: map<string, EventStatus>,
    outbound: map<string, Message>,
    holders: map<nat, string>,
    first: map<string, seq<Message>>)

  const START := World(map[], map[], map[], map[], map[])

  /** Claims may also take over stale rows, so any number of workers may project one
      event; each projection sees the order and the directory of its own moment. */
  datatype Action =
    | Append(event: string, payload: Payload)
    | Reply(message: Message)
    | Claim(worker: nat, event: string)
    | Project(worker: nat, snapshot: Snapshot, directory: Directory)
    | Fail(worker: nat, dead: bool)
    | Crash(worker: nat)

  ghost predicate Proper(a: Action) {
    a.Project? ==> WellListed(a.directory)
  }

  function Next(w: World, a: Action): World {
    match a
    case Append(e, p) =>
      if !IsEventId(e) || e in w.status then w else w.(payloads := w.payloads[e := p], status := w.status[e := Waiting])
    case Reply(m) => if Foreign(m.key) && m.key !in w.outbound then w.(outbound := w.outbound[m.key := m]) else w
    case Claim(worker, e) =>
      if e in w.status && (w.status[e] == Waiting || w.status[e] == Processing) then
        w.(status := w.status[e := Processing], holders := w.holders[worker := e])
      else w
    case Project(worker, s, directory) =>
      if worker in w.holders && w.holders[worker] in w.status && w.holders[worker] in w.payloads then
        var e := w.holders[worker];
        var messages := AllMessages(e, Plans(w.payloads[e], s), directory);
        w.(outbound := Inserted(w.outbound, messages),
           status := if w.status[e] == Processing then w.status[e := Delivered] else w.status,
           holders := w.holders - {worker},
           first := if e in w.first then w.first else w.first[e := messages])
      else w
    case Fail(worker, dead) =>
      if worker in w.holders && w.holders[worker] in w.status then
        var e := w.holders[worker];
        w.(status := if w.status[e] == Processing then w.status[e := if dead then Dead else Waiting] else w.status,
           holders := w.holders - {worker})
      else w
    case Crash(worker) => w.(holders := w.holders - {worker})
  }

  function Run(schedule: seq<Action>): World {
    if schedule == [] then START else Next(Run(schedule[..|schedule| - 1]), schedule[|schedule| - 1])
  }

  ghost predicate BelongsTo(key: string, event: string) {
    |key| > |event| && key[..|event|] == event
  }

  ghost predicate EventSound(w: World, e: string) {
    && (e in w.status ==> IsEventId(e) && e in w.payloads && (w.status[e] == Delivered ==> e in w.first))
    && (e in w.first ==> e in w.status && forall m :: m in w.first[e] ==> m.key in w.outbound && w.outbound[m.key] == m)
  }

  ghost predicate KeySound(w: World, k: string) {
    k in w.outbound && !Foreign(k) ==> exists e :: e in w.first && BelongsTo(k, e)
  }

  ghost predicate Sound(w: World) {
    (forall e :: EventSound(w, e)) && (forall k :: KeySound(w, k))
  }

  lemma KeyBelongs(event: string, plan: Plan, m: Message)
    requires FromPlan(event, plan, m)
    ensures BelongsTo(m.key, event)
  {
    assert m.key == event + (":" + plan.purpose + Address(m.recipient));
  }

  lemma PlansAreApart(p: Payload, s: Snapshot)
    ensures PlansApart(Plans(p, s))
  {
    forall i, j | 0 <= i < j < |Plans(p, s)| ensures Apart(Plans(p, s)[i].purpose, Plans(p, s)[j].purpose) {
      PurposesApart(p, s, i, j);
    }
  }

  lemma ForeignKeysDiffer(k: string, e: string)
    requires IsEventId(e) && BelongsTo(k, e)
    ensures !Foreign(k)
  {
  }

  lemma ProjectedIdsHaveLength(w: World, f: string)
    requires Sound(w) && f in w.first
    ensures |f| == ID_LENGTH
  {
    assert EventSound(w, f);
  }

  /** The first projection of an event finds none of its keys taken. */
  lemma FirstProjectionIsFresh(w: World, e: string, m: Message)
    requires Sound(w) && e in w.status && e !in w.first && BelongsTo(m.key, e)
    ensures m.key !in w.outbound
  {
    assert EventSound(w, e);
    assert KeySound(w, m.key);
    ForeignKeysDiffer(m.key, e);
    if m.key in w.outbound {
      var f :| f in w.first && BelongsTo(m.key, f);
      ProjectedIdsHaveLength(w, f);
      assert false;
    }
  }

  /** What one projection inserts: messages of its event only, and all of them if it is the first. */
  lemma ProjectionInserts(w: World, e: string, s: Snapshot, directory: Directory)
    requires Sound(w) && e in w.status && e in w.payloads && WellListed(directory)
    ensures var messages := AllMessages(e, Plans(w.payloads[e], s), directory);
            && (forall k :: k in w.outbound ==> k in Inserted(w.outbound, messages) && Inserted(w.outbound, messages)[k] == w.outbound[k])
            && (forall k :: k in Inserted(w.outbound, messages) ==> k in w.outbound || BelongsTo(k, e))
            && (e !in w.first ==>
                  && |Inserted(w.outbound, messages)| == |w.outbound| + |messages|
                  && forall m :: m in messages ==> m.key in Inserted(w.outbound, messages) && Inserted(w.outbound, messages)[m.key] == m)
  {
    hide Plans;
    hide Apart;
    hide Sound;
    hide BelongsTo;
    var plans := Plans(w.payloads[e], s);
    var messages := AllMessages(e, plans, directory);
    PlansAreApart(w.payloads[e], s);
    MessagesAreDistinct(e, plans, directory);
    MessagesAreAddressed(e, plans, directory);
    InsertedKeeps(w.outbound, messages);
    forall i | 0 <= i < |messages| ensures BelongsTo(messages[i].key, e) {
      var m := messages[i];
      assert m in messages && Addressed(e, plans, directory, m);
      var j :| 0 <= j < |plans| && FromPlan(e, plans[j], m) && m.recipient in Lookup(directory, plans[j]);
      KeyBelongs(e, plans[j], m);
    }
    if e !in w.first {
      forall i | 0 <= i < |messages| ensures messages[i].key !in w.outbound {
        FirstProjectionIsFresh(w, e, messages[i]);
      }
      FreshInsertsAll(w.outbound, messages);
      assert AllStored(Inserted(w.outbound, messages), messages);
    }
  }

  lemma ProjectKeeps(w: World, a: Action)
    requires Sound(w) && a.Project? && Proper(a)
    ensures Sound(Next(w, a))
  {
    hide Plans;
    hide BelongsTo;
    hide AllMessages;
    hide Inserted;
    var w' := Next(w, a);
    if a.worker in w.holders && w.holders[a.worker] in w.status && w.holders[a.worker] in w.payloads {
      var e := w.holders[a.worker];
      ProjectionInserts(w, e, a.snapshot, a.directory);
      forall f ensures EventSound(w', f) { assert EventSound(w, f); }
      forall k ensures KeySound(w', k) {
        assert KeySound(w, k);
        if k in w.outbound && !Foreign(k) {
          var f :| f in w.first && BelongsTo(k, f);
          assert f in w'.first;
        } else if k !in w.outbound && k in w'.outbound {
          assert e in w'.first && BelongsTo(k, e);
        }
      }
    }
  }

  lemma NextKeeps(w: World, a: Action)
    requires Sound(w) && Proper(a)
    ensures Sound(Next(w, a))
  {
    if a.Project? {
      ProjectKeeps(w, a);
    } else {
      var w' := Next(w, a);
      forall e ensures EventSound(w', e) { assert EventSound(w, e); }
      forall k ensures KeySound(w', k) { assert KeySound(w, k); }
    }
  }

  lemma {:induction false} RunKeeps(schedule: seq<Action>)
    requires forall i :: 0 <= i < |schedule| ==> Proper(schedule[i])
    ensures Sound(Run(schedule))
  {
    if schedule != [] {
      RunKeeps(schedule[..|schedule| - 1]);
      NextKeeps(Run(schedule[..|schedule| - 1]), schedule[|schedule| - 1]);
    }
  }

  /** An event marked delivered has been projected, and every message of its first
      projection is enqueued verbatim: no conflict swallowed one, whichever workers
      claimed, crashed, failed or projected the event again. */
  lemma DeliveredMeansEnqueued(schedule: seq<Action>, e: string)
    requires forall i :: 0 <= i < |schedule| ==> Proper(schedule[i])
    requires e in Run(schedule).status && Run(schedule).status[e] == Delivered
    ensures var w := Run(schedule);
            e in w.first && forall m :: m in w.first[e] ==> m.key in w.outbound && w.outbound[m.key] == m
  {
    RunKeeps(schedule);
    assert EventSound(Run(schedule), e);
  }

  /** The first projection of an event enqueues exactly one message for every pair of a
      plan and a recipient of that moment, and counts them all. */
  lemma FirstProjectionIsComplete(schedule: seq<Action>, a: Action)
    requires forall i :: 0 <= i < |schedule| ==> Proper(schedule[i])
    requires a.Project? && Proper(a)
    requires var w := Run(schedule); a.worker in w.holders && w.holders[a.worker] in w.status && w.holders[a.worker] !in w.first
    ensures var w, w' := Run(schedule), Next(Run(schedule), a);
            var e := w.holders[a.worker];
            && e in w.payloads
            && var plans := Plans(w.payloads[e], a.snapshot);
            && |w'.outbound| == |w.outbound| + |AllMessages(e, plans, a.directory)|
            && (forall i, r :: 0 <= i < |plans| && r in Lookup(a.directory, plans[i]) ==>
                  var m := Message(KeyOf(e, plans[i].purpose, r), plans[i], r);
                  m.key in w'.outbound && w'.outbound[m.key] == m)
  {
    hide Plans;
    hide Apart;
    hide Inserted;
    RunKeeps(schedule);
    var w := Run(schedule);
    var e := w.holders[a.worker];
    assert EventSound(w, e);
    var plans := Plans(w.payloads[e], a.snapshot);
    ProjectionInserts(w, e, a.snapshot, a.directory);
    forall i, r | 0 <= i < |plans| && r in Lookup(a.directory, plans[i])
      ensures Message(KeyOf(e, plans[i].purpose, r), plans[i], r) in AllMessages(e, plans, a.directory)
    {
      NobodyIsMissed(e, plans, a.directory, i, r);
    }
  }

  // Who is told ------------------------------------------------------------------------------

  predicate Serves(x: Listing, role: string) {
    x.active && role in x.roles
  }

  /** The listed actor is the one named, serving in the role. */
  predicate Is(x: Listing, who: Option<string>, role: string) {
    Filled(who) && x.actor == who.value && Serves(x, role)
  }

  predicate Filled(who: Option<string>) {
    who.Some? && who.value != ""
  }

  /** The coordinator, or every operator as long as there is none. */
  predicate InCharge(x: Listing, s: Snapshot) {
    if Filled(s.coordinator) then Is(x, s.coordinator, "operator") else Serves(x, "operator")
  }

  /** Who learns of an event, as a matter of who the actor is to the order. */
  predicate Hears(p: Payload, s: Snapshot, x: Listing) {
    match p
    case OrderSubmitted(_, _, _) => Serves(x, "operator")
    case CoordinationClaimed(who) => Is(x, Some(who), "operator")
    case PoolPublished(_, _) => Serves(x, "master")
    case InterestRecorded(_) => InCharge(x, s)
    case FirstClaimWon(_) => Is(x, s.assignee, "master") || (Filled(s.assignee) && Is(x, s.coordinator, "operator"))
    case OrderAssigned(_, _) => Is(x, s.assignee, "master") || (Filled(s.assignee) && Is(x, s.coordinator, "operator"))
    case OrderAccepted(_) => Is(x, s.assignee, "master") || Is(x, s.coordinator, "operator")
    case TravelStarted(_) =>
      || Is(x, s.assignee, "master") || Is(x, s.coordinator, "operator")
      || (s.hasBaseUrl && Filled(s.publicToken) && Is(x, s.requester, "client"))
    case WorkStarted(_) => Is(x, s.assignee, "master")
    case OrderCompleted(_, _) =>
      || Is(x, s.coordinator, "operator") || Is(x, s.requester, "client")
      || (!Filled(s.coordinator) && !Filled(s.requester) && Serves(x, "operator"))
    case AssignmentRejected(_) => InCharge(x, s)
    case OrderCancelled(_, _) => Is(x, s.assignee, "master") || Is(x, s.requester, "client")
    case _ => false
  }

  /** Who is offered a button, as a matter of what it does. */
  predicate Offered(p: Payload, s: Snapshot, x: Listing, b: Button) {
    match b
    case OpenMap(token) => p.TravelStarted? && s.hasBaseUrl && token != "" && s.publicToken == Some(token) && Is(x, s.requester, "client")
    case SendGps(token) => p.TravelStarted? && s.hasBaseUrl && token != "" && s.locationToken == Some(token) && Is(x, s.assignee, "master")
    case ShareLocation => p.TravelStarted? && Is(x, s.assignee, "master")
    case Press(action, executor, role) =>
      if action == "assign" then p.InterestRecorded? && executor == Some(p.executor) && role == "operator" && InCharge(x, s)
      else
        && executor == None
        && if action == "pool_publish" then p.OrderSubmitted? && role == "operator" && Serves(x, "operator")
           else
             && role == "master"
             && if action == "pool_interest" then p.PoolPublished? && p.mode == Curated && Serves(x, "master")
                else if action == "pool_claim" then p.PoolPublished? && p.mode == FirstClaim && Serves(x, "master")
                else
                  && Is(x, s.assignee, "master")
                  && if action == "accept" || action == "reject" then p.FirstClaimWon? || p.OrderAssigned?
                     else if action == "start_travel" then p.OrderAccepted?
                     else if action == "start_work" then p.OrderAccepted? || p.TravelStarted?
                     else action == "submit_report" && p.WorkStarted?
  }

  /** Some plan addresses the actor, with this button if one is asked for. */
  ghost predicate Gets(plans: seq<Plan>, x: Listing, b: Option<Button>) {
    exists i :: 0 <= i < |plans| && Receives(x, plans[i]) && (b.Some? ==> b.value in plans[i].buttons)
  }

  lemma GetsOne(plan: Plan, x: Listing, b: Option<Button>)
    ensures Gets([plan], x, b) <==> Receives(x, plan) && (b.Some? ==> b.value in plan.buttons)
  {
    assert [plan][0] == plan;
  }

  lemma GetsEither(one: seq<Plan>, two: seq<Plan>, x: Listing, b: Option<Button>)
    ensures Gets(one + two, x, b) <==> Gets(one, x, b) || Gets(two, x, b)
  {
    hide Receives;
    if Gets(one, x, b) {
      var i :| 0 <= i < |one| && Receives(x, one[i]) && (b.Some? ==> b.value in one[i].buttons);
      assert (one + two)[i] == one[i];
    }
    if Gets(two, x, b) {
      var i :| 0 <= i < |two| && Receives(x, two[i]) && (b.Some? ==> b.value in two[i].buttons);
      assert (one + two)[|one| + i] == two[i];
    }
  }

  lemma GetsWhenAny(actors: seq<string>, purpose: string, delivery: string, buttons: seq<Button>, x: Listing, b: Option<Button>)
    requires delivery != ""
    ensures Gets(WhenAny(actors, purpose, delivery, buttons), x, b)
            <==> x.actor in actors && Serves(x, delivery) && (b.Some? ==> b.value in buttons)
  {
    GetsOne(Plan(actors, [], purpose, delivery, buttons), x, b);
  }

  lemma AssignmentGets(s: Snapshot, x: Listing, b: Option<Button>)
    ensures Gets(AssignmentPlans(Present(s.assignee), Present(s.coordinator)), x, b)
            <==> || (Is(x, s.assignee, "master") && (b.Some? ==> b.value in {ForMaster("accept"), ForMaster("reject")}))
                 || (Filled(s.assignee) && Is(x, s.coordinator, "operator") && b.None?)
  {
    var assignee, coordinators := Present(s.assignee), Present(s.coordinator);
    var first := Plan(assignee, [], "assignment", "master", [ForMaster("accept"), ForMaster("reject")]);
    GetsOne(first, x, b);
    GetsWhenAny(coordinators, "coordinator_assignment", "operator", [], x, b);
    GetsEither([first], WhenAny(coordinators, "coordinator_assignment", "operator", []), x, b);
  }

  lemma TravelGets(p: Payload, s: Snapshot, x: Listing, b: Option<Button>)
    requires p.TravelStarted?
    ensures Gets(Plans(p, s), x, b)
            <==> || (Is(x, s.assignee, "master") && (b.Some? ==> b.value in {ForMaster("start_work"), ShareLocation}))
                 || (Is(x, s.coordinator, "operator") && b.None?)
                 || (s.hasBaseUrl && Filled(s.publicToken) && Is(x, s.requester, "client") && (b.Some? ==> b.value == OpenMap(s.publicToken.value)))
                 || (s.hasBaseUrl && Filled(s.locationToken) && Is(x, s.assignee, "master") && (b.Some? ==> b.value == SendGps(s.locationToken.value)))
  {
    hide Gets;
    var assignee, coordinators, requester := Present(s.assignee), Present(s.coordinator), Present(s.requester);
    var one, two := Plan(assignee, [], "travel", "master", [ForMaster("start_work")]), Plan(assignee, [], "travel:location", "master", [ShareLocation]);
    var three := WhenAny(coordinators, "coordinator_travel", "operator", []);
    var four := if s.hasBaseUrl && Present(s.publicToken) != [] then WhenAny(requester, "travel:client", "client", [OpenMap(s.publicToken.value)]) else [];
    var five := if s.hasBaseUrl && Present(s.locationToken) != [] then
                  WhenAny(assignee, "travel:browser_location", "master", [SendGps(s.locationToken.value)])
                else [];
    GetsOne(one, x, b);
    GetsOne(two, x, b);
    assert [one, two] == [one] + [two];
    GetsEither([one], [two], x, b);
    GetsWhenAny(coordinators, "coordinator_travel", "operator", [], x, b);
    GetsEither([one, two], three, x, b);
    GetsEither([one, two] + three, four, x, b);
    GetsEither([one, two] + three + four, five, x, b);
    NobodyGets(x, b);
    if four != [] { GetsWhenAny(requester, "travel:client", "client", [OpenMap(s.publicToken.value)], x, b); }
    if five != [] { GetsWhenAny(assignee, "travel:browser_location", "master", [SendGps(s.locationToken.value)], x, b); }
  }

  lemma NobodyGets(x: Listing, b: Option<Button>)
    ensures !Gets([], x, b)
  {
  }

  lemma TwoPlansGet(p: Payload, s: Snapshot, x: Listing, b: Option<Button>)
    requires p.OrderAccepted? || p.OrderCompleted? || p.OrderCancelled?
    ensures Gets(Plans(p, s), x, b)
            <==> match p
                 case OrderAccepted(_) =>
                   || (Is(x, s.assignee, "master") && (b.Some? ==> b.value in {ForMaster("start_travel"), ForMaster("start_work")}))
                   || (Is(x, s.coordinator, "operator") && b.None?)
                 case OrderCancelled(_, _) => b.None? && Hears(p, s, x)
                 case _ => b.None? && Hears(p, s, x)
  {
    var assignee, coordinators, requester := Present(s.assignee), Present(s.coordinator), Present(s.requester);
    match p {
      case OrderAccepted(_) =>
        var one := Plan(assignee, [], "executor_accepted", "master", [ForMaster("start_travel"), ForMaster("start_work")]);
        GetsOne(one, x, b);
        GetsWhenAny(coordinators, "coordinator_accepted", "operator", [], x, b);
        GetsEither([one], WhenAny(coordinators, "coordinator_accepted", "operator", []), x, b);
      case OrderCompleted(_, _) =>
        GetsWhenAny(coordinators, "completed:operator", "operator", [], x, b);
        GetsWhenAny(requester, "completed:client", "client", [], x, b);
        GetsEither(WhenAny(coordinators, "completed:operator", "operator", []), WhenAny(requester, "completed:client", "client", []), x, b);
        GetsOne(Plan([], ["operator"], "completed:operator", "operator", []), x, b);
      case _ =>
        GetsWhenAny(assignee, "cancelled:master", "master", [], x, b);
        GetsWhenAny(requester, "cancelled:client", "client", [], x, b);
        GetsEither(WhenAny(assignee, "cancelled:master", "master", []), WhenAny(requester, "cancelled:client", "client", []), x, b);
    }
  }

  lemma PlansTell(p: Payload, s: Snapshot, x: Listing)
    ensures Gets(Plans(p, s), x, None) <==> Hears(p, s, x)
  {
    if p.TravelStarted? {
      TravelGets(p, s, x, None);
    } else if p.OrderAccepted? || p.OrderCompleted? || p.OrderCancelled? {
      TwoPlansGet(p, s, x, None);
    } else if p.FirstClaimWon? || p.OrderAssigned? {
      AssignmentGets(s, x, None);
    } else if Plans(p, s) != [] {
      GetsOne(Plans(p, s)[0], x, None);
    }
  }

  lemma PlansOffer(p: Payload, s: Snapshot, x: Listing, b: Button)
    ensures Gets(Plans(p, s), x, Some(b)) <==> Offered(p, s, x, b)
  {
    hide Gets;
    if p.TravelStarted? {
      TravelGets(p, s, x, Some(b));
    } else if p.OrderAccepted? || p.OrderCompleted? || p.OrderCancelled? {
      TwoPlansGet(p, s, x, Some(b));
    } else if p.FirstClaimWon? || p.OrderAssigned? {
      AssignmentGets(s, x, Some(b));
    } else if Plans(p, s) == [] {
      NobodyGets(x, Some(b));
    } else {
      GetsOne(Plans(p, s)[0], x, Some(b));
    }
  }

  /** The outbound table holds a message of the event to the recipient, with this button if one is asked for. */
  ghost predicate Reached(w: World, e: string, r: Recipient, b: Option<Button>) {
    exists k :: k in w.outbound && BelongsTo(k, e) && w.outbound[k].recipient == r && (b.Some? ==> b.value in w.outbound[k].plan.buttons)
  }

  /** After the first projection of an event exactly the identities of those the event concerns
      have a message of it, and exactly those it is meant for are offered each button: the map
      opens for the client only and the page that sends positions for the executor only. */
  lemma TheRightPeopleAreTold(schedule: seq<Action>, a: Action, r: Recipient, b: Button)
    requires forall i :: 0 <= i < |schedule| ==> Proper(schedule[i])
    requires a.Project? && Proper(a)
    requires var w := Run(schedule); a.worker in w.holders && w.holders[a.worker] in w.status && w.holders[a.worker] !in w.first
    ensures var w, w', e := Run(schedule), Next(Run(schedule), a), Run(schedule).holders[a.worker];
            && e in w.payloads
            && (Reached(w', e, r, None) <==>
                  exists x :: x in a.directory && x.recipient == r && Hears(w.payloads[e], a.snapshot, x))
            && (Reached(w', e, r, Some(b)) <==>
                  exists x :: x in a.directory && x.recipient == r && Offered(w.payloads[e], a.snapshot, x, b))
  {
    hide Plans;
    hide Hears;
    hide Offered;
    hide Sound;
    hide Reached;
    RunKeeps(schedule);
    var w, e := Run(schedule), Run(schedule).holders[a.worker];
    PendingHasPayload(w, e);
    ProjectionReaches(w, e, a.snapshot, a.directory, a.worker, r, None);
    ProjectionReaches(w, e, a.snapshot, a.directory, a.worker, r, Some(b));
    forall x { PlansTell(w.payloads[e], a.snapshot, x); }
    forall x { PlansOffer(w.payloads[e], a.snapshot, x, b); }
  }

  lemma PendingHasPayload(w: World, e: string)
    requires Sound(w) && e in w.status
    ensures e in w.payloads
  {
    assert EventSound(w, e);
  }

  /** After the first projection the messages of the event are exactly those planned. */
  lemma ProjectionStores(w: World, e: string, s: Snapshot, directory: Directory, worker: nat)
    requires Sound(w) && worker in w.holders && w.holders[worker] == e && e in w.status && e in w.payloads && e !in w.first && WellListed(directory)
    ensures var w', plans := Next(w, Project(worker, s, directory)), Plans(w.payloads[e], s);
            var messages := AllMessages(e, plans, directory);
            && (forall k :: k in w'.outbound && BelongsTo(k, e) ==> w'.outbound[k] in messages)
            && (forall m :: m in messages ==> m.key in w'.outbound && w'.outbound[m.key] == m)
  {
    hide Plans;
    hide Sound;
    hide BelongsTo;
    hide AllMessages;
    var w', messages := Next(w, Project(worker, s, directory)), AllMessages(e, Plans(w.payloads[e], s), directory);
    ProjectionInserts(w, e, s, directory);
    InsertedKeeps(w.outbound, messages);
    forall k | k in w'.outbound && BelongsTo(k, e) ensures w'.outbound[k] in messages {
      FirstProjectionIsFresh(w, e, Message(k, w'.outbound[k].plan, w'.outbound[k].recipient));
      var i :| 0 <= i < |messages| && messages[i].key == k;
      assert messages[i] in messages;
    }
  }

  lemma AddressedGets(e: string, plans: seq<Plan>, directory: Directory, m: Message, b: Option<Button>)
    requires Addressed(e, plans, directory, m) && (b.Some? ==> b.value in m.plan.buttons)
    ensures exists x :: x in directory && x.recipient == m.recipient && Gets(plans, x, b)
  {
    hide Receives;
    var j :| 0 <= j < |plans| && FromPlan(e, plans[j], m) && m.recipient in Lookup(directory, plans[j]);
    LookupFinds(directory, plans[j], m.recipient);
    var l :| 0 <= l < |directory| && directory[l].recipient == m.recipient && Receives(directory[l], plans[j]);
    assert directory[l] in directory && Gets(plans, directory[l], b);
  }

  lemma GetterIsAddressed(e: string, plans: seq<Plan>, directory: Directory, x: Listing, b: Option<Button>) returns (m: Message)
    requires WellListed(directory) && x in directory && Gets(plans, x, b)
    ensures m in AllMessages(e, plans, directory) && m.recipient == x.recipient && BelongsTo(m.key, e)
    ensures b.Some? ==> b.value in m.plan.buttons
  {
    hide Receives;
    var j :| 0 <= j < |plans| && Receives(x, plans[j]) && (b.Some? ==> b.value in plans[j].buttons);
    LookupFinds(directory, plans[j], x.recipient);
    NobodyIsMissed(e, plans, directory, j, x.recipient);
    m := Message(KeyOf(e, plans[j].purpose, x.recipient), plans[j], x.recipient);
    KeyBelongs(e, plans[j], m);
  }

  lemma ProjectionReaches(w: World, e: string, s: Snapshot, directory: Directory, worker: nat, r: Recipient, b: Option<Button>)
    requires Sound(w) && worker in w.holders && w.holders[worker] == e && e in w.status && e in w.payloads && e !in w.first && WellListed(directory)
    ensures var w' := Next(w, Project(worker, s, directory));
            Reached(w', e, r, b) <==> exists x :: x in directory && x.recipient == r && Gets(Plans(w.payloads[e], s), x, b)
  {
    hide Plans;
    hide Sound;
    hide Gets;
    hide Next;
    hide AllMessages;
    hide BelongsTo;
    hide Addressed;
    hide WellListed;
    var plans, w' := Plans(w.payloads[e], s), Next(w, Project(worker, s, directory));
    ProjectionStores(w, e, s, directory, worker);
    MessagesAreAddressed(e, plans, directory);
    if Reached(w', e, r, b) {
      var k :| k in w'.outbound && BelongsTo(k, e) && w'.outbound[k].recipient == r && (b.Some? ==> b.value in w'.outbound[k].plan.buttons);
      AddressedGets(e, plans, directory, w'.outbound[k], b);
    }
    if x :| x in directory && x.recipient == r && Gets(plans, x, b) {
      var m := GetterIsAddressed(e, plans, directory, x, b);
      assert w'.outbound[m.key] == m;
    }
  }
}
