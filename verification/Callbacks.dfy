/** Callback buttons: the single-owner claim of a token, and the nine order actions
    behind it, which a redelivered update may run again. */
module Callbacks {
  import opened Prelude
  import opened Domain
  import opened WorkOrders
  import opened Tracking
  import opened EventLog
  import opened MemoryStore
  import opened Service

  // Token claims -----------------------------------------------------------------------

  datatype Token = Token(
    org: string,
    allowedRole: Option<string>,
    expiresAt: int,
    revoked: bool,
    claimKey: Option<string>,
    completed: bool)

  /** The guard of the claiming update: unclaimed, or claimed by this key and unfinished. */
  predicate Claimable(t: Token, org: string, role: string, key: string, now: int) {
    && t.org == org && t.expiresAt > now
    && (!t.revoked || (t.claimKey == Some(key) && !t.completed))
    && (t.allowedRole.None? || t.allowedRole == Some(role) || role == "admin")
  }

  function Claimed(t: Token, key: string): Token {
    t.(revoked := true, claimKey := if t.claimKey.Some? then t.claimKey else Some(key))
  }

  predicate Completable(t: Token, org: string, key: string) {
    t.org == org && t.claimKey == Some(key) && !t.completed
  }

  class CallbackStore {
    var tokens: map<string, Token>

    constructor ()
      ensures tokens == map[]
    {
      tokens := map[];
    }

    method Create(token: string, org: string, role: Option<string>, expiresAt: int)
      requires token !in tokens
      modifies this
      ensures tokens == old(tokens)[token := Token(org, role, expiresAt, false, None, false)]
    {
      tokens := tokens[token := Token(org, role, expiresAt, false, None, false)];
    }

    method Resolve(token: string, org: string, role: string, key: string, now: int) returns (resolved: bool)
      modifies this
      ensures resolved <==> token in old(tokens) && Claimable(old(tokens)[token], org, role, key, now)
      ensures tokens == if resolved then old(tokens)[token := Claimed(old(tokens)[token], key)] else old(tokens)
    {
      if token !in tokens { return false; }
      var row := tokens[token];
      if row.org != org || row.expiresAt <= now { return false; }
      if row.revoked && (row.claimKey != Some(key) || row.completed) { return false; }
      if row.allowedRole.Some? && row.allowedRole != Some(role) && role != "admin" { return false; }
      if !row.revoked { row := row.(revoked := true); }
      if row.claimKey.None? { row := row.(claimKey := Some(key)); }
      tokens := tokens[token := row];
      return true;
    }

    method Complete(token: string, org: string, key: string) returns (completed: bool)
      modifies this
      ensures completed <==> token in old(tokens) && Completable(old(tokens)[token], org, key)
      ensures tokens == if completed then old(tokens)[token := old(tokens)[token].(completed := true)] else old(tokens)
    {
      completed := token in tokens && tokens[token].org == org && tokens[token].claimKey == Some(key) && !tokens[token].completed;
      if completed { tokens := tokens[token := tokens[token].(completed := true)]; }
    }
  }

  datatype Call =
    | Create(token: string, org: string, role: Option<string>, expiresAt: int)
    | Resolve(token: string, org: string, actorRole: string, key: string, now: int)
    | Complete(token: string, org: string, key: string)

  /** The calls that succeeded, in order. */
  datatype Happening = Resolved(token: string, key: string) | Closed(token: string, key: string)

  datatype Desk = Desk(tokens: map<string, Token>, history: seq<Happening>)

  function Serve(s: Desk, c: Call): Desk {
    match c
    case Create(token, org, role, expiresAt) =>
      if token in s.tokens then s else s.(tokens := s.tokens[token := Token(org, role, expiresAt, false, None, false)])
    case Resolve(token, org, role, key, now) =>
      if token in s.tokens && Claimable(s.tokens[token], org, role, key, now) then
        Desk(s.tokens[token := Claimed(s.tokens[token], key)], s.history + [Resolved(token, key)])
      else s
    case Complete(token, org, key) =>
      if token in s.tokens && Completable(s.tokens[token], org, key) then
        Desk(s.tokens[token := s.tokens[token].(completed := true)], s.history + [Closed(token, key)])
      else s
  }

  function ServeAll(calls: seq<Call>): Desk {
    if calls == [] then Desk(map[], []) else Serve(ServeAll(calls[..|calls| - 1]), calls[|calls| - 1])
  }

  ghost predicate TokensSound(s: Desk) {
    && (forall t :: t in s.tokens ==> (s.tokens[t].revoked <==> s.tokens[t].claimKey.Some?))
    && (forall i :: 0 <= i < |s.history| ==>
          var h := s.history[i];
          && h.token in s.tokens && s.tokens[h.token].claimKey == Some(h.key)
          && (h.Closed? ==> s.tokens[h.token].completed))
    && (forall i, j :: 0 <= i < j < |s.history| && s.history[i].token == s.history[j].token ==> !s.history[i].Closed?)
  }

  ghost predicate Happened(history: seq<Happening>, token: string) {
    exists i :: 0 <= i < |history| && history[i].token == token
  }

  ghost predicate Finished(history: seq<Happening>, token: string) {
    exists i :: 0 <= i < |history| && history[i].token == token && history[i].Closed?
  }

  /** Only what happened marks a token. */
  ghost predicate Witnessed(s: Desk, t: string) {
    t in s.tokens ==> (s.tokens[t].revoked ==> Happened(s.history, t)) && (s.tokens[t].completed ==> Finished(s.history, t))
  }

  lemma {:induction false} ServingKeepsTokensSound(calls: seq<Call>)
    ensures TokensSound(ServeAll(calls))
  {
    if calls != [] { ServingKeepsTokensSound(calls[..|calls| - 1]); }
  }

  lemma HistoryKept(history: seq<Happening>, h: Happening, t: string)
    ensures Happened(history, t) || h.token == t ==> Happened(history + [h], t)
    ensures Finished(history, t) || (h.token == t && h.Closed?) ==> Finished(history + [h], t)
  {
    assert (history + [h])[|history|] == h;
    if Happened(history, t) {
      var i :| 0 <= i < |history| && history[i].token == t;
      assert (history + [h])[i] == history[i];
    }
    if Finished(history, t) {
      var i :| 0 <= i < |history| && history[i].token == t && history[i].Closed?;
      assert (history + [h])[i] == history[i];
    }
  }

  lemma {:induction false} ServingIsWitnessed(calls: seq<Call>, t: string)
    ensures Witnessed(ServeAll(calls), t)
  {
    hide Happened;
    hide Finished;
    if calls != [] {
      var s, c := ServeAll(calls[..|calls| - 1]), calls[|calls| - 1];
      ServingIsWitnessed(calls[..|calls| - 1], t);
      match c {
        case Create(_, _, _, _) =>
        case Resolve(token, _, _, key, _) => HistoryKept(s.history, Resolved(token, key), t);
        case Complete(token, _, key) => HistoryKept(s.history, Happening.Closed(token, key), t);
      }
    }
  }

  /** Over any run of calls, by any number of workers, a token is resolved for one claim
      key only, finished at most once and by that key, and never resolved afterwards. */
  lemma TokensHaveOneOwner(calls: seq<Call>, i: nat, j: nat)
    requires i < j < |ServeAll(calls).history|
    requires ServeAll(calls).history[i].token == ServeAll(calls).history[j].token
    ensures ServeAll(calls).history[i].key == ServeAll(calls).history[j].key
    ensures ServeAll(calls).history[i].Resolved?
  {
    ServingKeepsTokensSound(calls);
  }

  /** The call that issued the token. */
  function Issued(calls: seq<Call>, token: string): Option<Call> {
    if calls == [] then None
    else
      var n := |calls| - 1;
      var before := Issued(calls[..n], token);
      if before.None? && calls[n].Create? && calls[n].token == token then Some(calls[n]) else before
  }

  lemma {:induction false} TokensAreAsIssued(calls: seq<Call>, token: string)
    ensures var s, c := ServeAll(calls), Issued(calls, token);
            && (token in s.tokens <==> c.Some?)
            && (c.Some? ==> c.value.Create? && s.tokens[token].org == c.value.org && s.tokens[token].allowedRole == c.value.role
                            && s.tokens[token].expiresAt == c.value.expiresAt)
  {
    if calls != [] { TokensAreAsIssued(calls[..|calls| - 1], token); }
  }

  /** Over any run of calls a token resolves for an actor exactly when it was issued to the actor's
      organization, for everybody, for the actor's role or to an administrator, has not expired,
      was never resolved under another key and is not finished. */
  lemma ResolvesExactly(calls: seq<Call>, token: string, org: string, role: string, key: string, now: int)
    ensures var s, c := ServeAll(calls), Issued(calls, token);
            |ServeAll(calls + [Resolve(token, org, role, key, now)]).history| > |s.history|
            <==> && c.Some? && c.value.Create? && c.value.org == org && now < c.value.expiresAt
                 && (c.value.role.None? || c.value.role == Some(role) || role == "admin")
                 && forall h :: h in s.history && h.token == token ==> h == Resolved(token, key)
  {
    var call := Resolve(token, org, role, key, now);
    assert (calls + [call])[..|calls|] == calls;
    TokensAreAsIssued(calls, token);
    ServingKeepsTokensSound(calls);
    ServingIsWitnessed(calls, token);
    var s := ServeAll(calls);
    if forall h :: h in s.history && h.token == token ==> h == Resolved(token, key) {
      if token in s.tokens && s.tokens[token].completed {
        var i :| 0 <= i < |s.history| && s.history[i].token == token && s.history[i].Closed?;
        assert s.history[i] in s.history;
      }
      if token in s.tokens && s.tokens[token].revoked {
        var i :| 0 <= i < |s.history| && s.history[i].token == token;
        assert s.history[i] in s.history;
      }
    }
  }

  /** And a claim is completed exactly once, in the token's organization, by the key that resolved it. */
  lemma CompletesExactly(calls: seq<Call>, token: string, org: string, key: string)
    ensures var s, c := ServeAll(calls), Issued(calls, token);
            |ServeAll(calls + [Call.Complete(token, org, key)]).history| > |s.history|
            <==> && c.Some? && c.value.Create? && c.value.org == org
                 && Resolved(token, key) in s.history && forall h :: h in s.history && h.token == token ==> h.Resolved?
  {
    var call := Call.Complete(token, org, key);
    assert (calls + [call])[..|calls|] == calls;
    TokensAreAsIssued(calls, token);
    ServingKeepsTokensSound(calls);
    ServingIsWitnessed(calls, token);
    var s := ServeAll(calls);
    if token in s.tokens && s.tokens[token].completed {
      var i :| 0 <= i < |s.history| && s.history[i].token == token && s.history[i].Closed?;
      assert s.history[i] in s.history;
    }
    if token in s.tokens && s.tokens[token].claimKey == Some(key) && !s.tokens[token].completed {
      var i :| 0 <= i < |s.history| && s.history[i].token == token;
      assert s.history[i] in s.history && s.history[i] == Resolved(token, key);
    }
  }

  // The actions ------------------------------------------------------------------------

  datatype Actor = Actor(org: string, id: string, role: string)

  datatype Button =
    | PoolPublish(mode: PoolMode)
    | PoolInterest
    | PoolClaim
    | AssignTo(executor: string)
    | AcceptOrder
    | RejectOrder
    | TravelStart(start: SessionStart)
    | WorkStart
    | SubmitReport

  /** The committed data and the report drafts, by order and executor. */
  datatype World = World(data: Data, drafts: map<(Key, string), Report>)

  const BLANK := Report([], None, None, None)

  function Draft(w: World, k: Key, executor: string): Report {
    if (k, executor) in w.drafts then w.drafts[(k, executor)] else BLANK
  }

  predicate RoleMay(role: string, b: Button) {
    if b.PoolPublish? || b.AssignTo? then role == "operator" || role == "admin" else role == "master"
  }

  /** The service command behind a button. */
  function CommandOf(w: World, a: Actor, k: Key, b: Button): Command {
    match b
    case PoolPublish(mode) => Command.PublishPool(mode, Some(a.id))
    case PoolInterest => Command.ExpressInterest(a.id)
    case PoolClaim => Command.ClaimFirst(a.id)
    case AssignTo(executor) => Command.Assign(executor, Some(a.id))
    case AcceptOrder => Command.Accept(a.id)
    case RejectOrder => Command.RejectAssignment(a.id)
    case TravelStart(_) => Command.StartTravel(a.id)
    case WorkStart => Command.StartWork(a.id)
    case SubmitReport => Command.Complete(a.id, Draft(w, k, a.id))
  }

  /** When a refused transition counts as already done, judged on the stored order. */
  predicate AlreadyDone(o: Order, a: Actor, b: Button) {
    match b
    case PoolPublish(_) => o.status != Submitted
    case PoolInterest => a.id in o.responses && (o.responses[a.id] == Interested || o.responses[a.id] == Selected)
    case PoolClaim => o.assignee == Some(a.id)
    case AssignTo(executor) => o.assignee == Some(executor)
    case AcceptOrder => o.assignee == Some(a.id) && (o.status == Accepted || Underway(o.status) || o.status == Completed)
    case RejectOrder => o.assignee.None?
    case TravelStart(_) => false
    case WorkStart => o.assignee == Some(a.id) && (o.status == InProgress || o.status == Completed)
    case SubmitReport => o.status == Completed
  }

  /** The executor has an order under way; travel is then taken as started already. */
  predicate Travelling(d: Data, a: Actor) {
    exists k :: k in d.orders && d.orders[k].org == a.org && d.orders[k].assignee == Some(a.id) && Underway(d.orders[k].status)
  }

  function StartOf(b: Button): SessionStart {
    if b.TravelStart? then b.start else SessionStart("", "", "")
  }

  /** The first effect of a button: the service command, or nothing when it is excused. */
  ghost function Served(w: World, a: Actor, orderId: string, b: Button): Result<World> {
    var k := (a.org, orderId);
    if orderId == "" || !RoleMay(a.role, b) then Failure(InvalidTransition)
    else if b.TravelStart? && Travelling(w.data, a) then Success(w)
    else
      match Atomically(w.data, Txn(OnOrder(k, CommandOf(w, a, k, b), StartOf(b)), "", 0))
      case Success(d) => Success(w.(data := d))
      case Failure(e) =>
        if e == InvalidTransition && k in w.data.orders && AlreadyDone(w.data.orders[k], a, b) then Success(w) else Failure(e)
  }

  /** The second effect, after the service has committed: a submitted report's draft is cleared. */
  function DraftCleared(w: World, a: Actor, orderId: string, b: Button): World {
    if b.SubmitReport? then w.(drafts := w.drafts - {((a.org, orderId), a.id)}) else w
  }

  /** One execution of a button: a reply (success) with the world it leaves, or the error raised. */
  ghost function Execute(w: World, a: Actor, orderId: string, b: Button): Result<World> {
    match Served(w, a, orderId, b)
    case Failure(e) => Failure(e)
    case Success(served) => Success(DraftCleared(served, a, orderId, b))
  }

  // What a reply means -----------------------------------------------------------------

  /** How far an order has come; a cancelled one counts for nothing. */
  function Progress(s: OrderStatus): int {
    match s
    case Cancelled => -1
    case Submitted => 0
    case PoolOpen => 1
    case Assigned => 2
    case Accepted => 3
    case EnRoute => 4
    case InProgress => 5
    case Completed => 6
  }

  /** What the reply to a button tells the actor is so. */
  ghost predicate Holds(d: Data, a: Actor, k: Key, b: Button) {
    if b.TravelStart? then
      exists j :: j in d.orders && j.0 == a.org && d.orders[j].assignee == Some(a.id) && 4 <= Progress(d.orders[j].status) <= 5
    else
      && k in d.orders
      && var o := d.orders[k];
         match b
         case PoolPublish(_) => Progress(o.status) != 0
         case PoolInterest => a.id in o.responses && o.responses[a.id] in {Interested, Selected}
         case PoolClaim => o.assignee == Some(a.id)
         case AssignTo(executor) => o.assignee == Some(executor)
         case AcceptOrder => o.assignee == Some(a.id) && Progress(o.status) >= 3
         case RejectOrder => o.assignee == None
         case TravelStart(_) => true
         case WorkStart => o.assignee == Some(a.id) && Progress(o.status) >= 5
         case SubmitReport => Progress(o.status) == 6
  }

  ghost predicate MayPress(role: string, b: Button) {
    match b
    case PoolPublish(_) => role in {"operator", "admin"}
    case AssignTo(_) => role in {"operator", "admin"}
    case _ => role == "master"
  }

  lemma DecisionHolds(o: Order, a: Actor, w: World, k: Key, b: Button)
    requires !b.TravelStart? && Decide(o, CommandOf(w, a, k, b)).Success?
    ensures var o' := Decide(o, CommandOf(w, a, k, b)).value.order;
            match b
            case PoolPublish(_) => o'.status == PoolOpen
            case PoolInterest => a.id in o'.responses && o'.responses[a.id] == Interested
            case PoolClaim => o'.assignee == Some(a.id)
            case AssignTo(executor) => o'.assignee == Some(executor)
            case AcceptOrder => o'.assignee == Some(a.id) && o'.status == Accepted
            case RejectOrder => o'.assignee == None
            case TravelStart(_) => true
            case WorkStart => o'.assignee == Some(a.id) && o'.status == InProgress
            case SubmitReport => o'.status == Completed
  {
    hide MeetsEvidence;
    hide WorkOrders.Resolved;
  }

  /** An excuse is judged on what the reply tells; a departure is never excused by its order. */
  lemma ExcusedWhenSo(d: Data, a: Actor, k: Key, b: Button)
    requires k in d.orders
    ensures AlreadyDone(d.orders[k], a, b) <==> !b.TravelStart? && Holds(d, a, k, b)
  {
  }

  /** Whoever is told success is told the truth: the button's effect is there in the world the
      press leaves, and the actor's role entitles to it. */
  lemma SuccessMeansDone(w: World, a: Actor, orderId: string, b: Button)
    requires Good(w.data) && Execute(w, a, orderId, b).Success?
    ensures Holds(Execute(w, a, orderId, b).value.data, a, (a.org, orderId), b) && MayPress(a.role, b)
    ensures b.SubmitReport? ==> ((a.org, orderId), a.id) !in Execute(w, a, orderId, b).value.drafts
  {
    hide Decide;
    hide Good;
    hide AlreadyDone;
    hide Atomically;
    hide Travelling;
    var k := (a.org, orderId);
    var t := Txn(OnOrder(k, CommandOf(w, a, k, b), StartOf(b)), "", 0);
    if b.TravelStart? {
      TravelHolds(w, a, orderId, b);
    } else if Atomically(w.data, t).Success? {
      CommandTookEffect(w, a, k, b, t);
      DecisionHolds(w.data.orders[k], a, w, k, b);
    } else {
      ExcusedWhenSo(w.data, a, k, b);
    }
  }

  lemma TravelHolds(w: World, a: Actor, orderId: string, b: Button)
    requires Good(w.data) && b.TravelStart? && Execute(w, a, orderId, b).Success?
    ensures Holds(Execute(w, a, orderId, b).value.data, a, (a.org, orderId), b)
  {
    hide Good;
    hide Atomically;
    hide Travelling;
    hide Holds;
    var d, k := w.data, (a.org, orderId);
    if Travelling(d, a) {
      TravellersTravel(d, a, k, b);
    } else {
      var t := Txn(OnOrder(k, Command.StartTravel(a.id), b.start), "", 0);
      TravelTookEffect(d, a, k, t);
      TransactionsKeepGood(d, t);
      TravellersTravel(Atomically(d, t).value, a, k, b);
    }
  }

  lemma TravellersTravel(d: Data, a: Actor, k: Key, b: Button)
    requires Good(d) && b.TravelStart?
    ensures Travelling(d, a) <==> Holds(d, a, k, b)
  {
    hide Consistent;
    forall j | j in d.orders ensures d.orders[j].org == j.0 { SoundAt(d, j); }
  }

  /** The event a button asks for. */
  function Asked(w: World, a: Actor, k: Key, b: Button): Payload {
    match b
    case PoolPublish(mode) => PoolPublished(mode, Some(a.id))
    case PoolInterest => InterestRecorded(a.id)
    case PoolClaim => FirstClaimWon(a.id)
    case AssignTo(executor) => OrderAssigned(executor, Some(a.id))
    case AcceptOrder => OrderAccepted(a.id)
    case RejectOrder => AssignmentRejected(a.id)
    case TravelStart(_) => TravelStarted(a.id)
    case WorkStart => WorkStarted(a.id)
    case SubmitReport => OrderCompleted(a.id, |Draft(w, k, a.id).photoRefs|)
  }

  /** A press that changes anything records the event the button asks for, first of all, and a
      report is stored as it was drafted. */
  lemma PressAnnounces(w: World, a: Actor, orderId: string, b: Button)
    requires Good(w.data) && Execute(w, a, orderId, b).Success? && Execute(w, a, orderId, b).value.data != w.data
    ensures var d, d', k := w.data, Execute(w, a, orderId, b).value.data, (a.org, orderId);
            && k in d.orders && d.outbox < d'.outbox
            && d'.outbox[|d.outbox|] == Event(OrderAggregate, k, d.orders[k].version + 1, Asked(w, a, k, b))
            && (b.SubmitReport? ==>
                  && k in d'.orders
                  && d'.orders[k].report == Some(if (k, a.id) in w.drafts then w.drafts[(k, a.id)] else Report([], None, None, None)))
  {
    hide Decide;
    hide Good;
    hide Atomically;
    hide Escort;
    hide Redundant;
    hide Travelling;
    var k := (a.org, orderId);
    var t := Txn(OnOrder(k, CommandOf(w, a, k, b), StartOf(b)), "", 0);
    CommandsAnnounce(w.data, t);
    if b.SubmitReport? {
      CommandTookEffect(w, a, k, b, t);
      ReportIsStored(w.data.orders[k], a.id, Draft(w, k, a.id));
    }
  }

  lemma ReportIsStored(o: Order, who: string, report: Report)
    requires Decide(o, Command.Complete(who, report)).Success?
    ensures Decide(o, Command.Complete(who, report)).value.order.report == Some(report)
  {
  }

  /** A press succeeds exactly when the role entitles to it and either the order's log admits the
      event, the arguments are in order, the executor taken is free and the session may begin, or
      the log does not admit it and what the reply tells is so already. A departure only looks
      whether the executor is under way, whatever the order. */
  lemma PressSucceedsExactly(w: World, a: Actor, orderId: string, b: Button)
    requires Good(w.data)
    ensures var d, k, c := w.data, (a.org, orderId), CommandOf(w, a, (a.org, orderId), b);
            Execute(w, a, orderId, b).Success? <==>
            && orderId != "" && MayPress(a.role, b)
            && ((b.TravelStart? && Holds(d, a, k, b))
                || (&& k in d.orders
                    && if Legal(d.orders[k], c) then
                         && WellPut(c, d.orders[k].intent.evidence)
                         && (Taken(c).Some? ==> !Occupied(d, k.0, Taken(c).value))
                         && (b.TravelStart? ==> MayBegin(d, k, a.id, b.start))
                       else !b.TravelStart? && Holds(d, a, k, b)))
  {
    hide Decide;
    hide Good;
    hide Atomically;
    hide Legal;
    hide WellPut;
    hide Travelling;
    hide Occupied;
    hide MayBegin;
    hide AlreadyDone;
    hide Holds;
    var d, k, c := w.data, (a.org, orderId), CommandOf(w, a, (a.org, orderId), b);
    var t := Txn(OnOrder(k, c, StartOf(b)), "", 0);
    CommandsSucceedExactly(d, t);
    if b.TravelStart? { TravellersTravel(d, a, k, b); }
    if k in d.orders {
      SoundAt(d, k);
      DecidesExactly(d.orders[k], c);
      RedundantIsLegal(d.orders[k], c);
      ExcusedWhenSo(d, a, k, b);
      if !b.TravelStart? { RefusedAsDecided(d, t); }
    }
  }

  lemma RedundantIsLegal(o: Order, c: Command)
    requires Sound(o) && !c.ClaimCoordination?
    ensures Redundant(o, c) ==> Legal(o, c) && WellPut(c, o.intent.evidence)
  {
  }

  /** A refused transition is the command's own. */
  lemma RefusedAsDecided(d: Data, t: Txn)
    requires Good(d) && t.request.OnOrder? && t.request.key in d.orders && !t.request.command.StartTravel?
    ensures Atomically(d, t) == Failure(InvalidTransition) <==> Decide(d.orders[t.request.key], t.request.command) == Failure(InvalidTransition)
  {
    hide Decide;
    PartSucceedsExactly(d, t.request.key, t.request.command, t.request.start);
  }

  /** Of two executors who claim one order at most one is told success, for as long as the
      assignment stands. */
  lemma OneClaimWins(w: World, a: Actor, other: Actor, orderId: string, later: World)
    requires Good(w.data) && Execute(w, a, orderId, PoolClaim).Success?
    requires Good(later.data) && other.org == a.org && other.id != a.id
    requires var k := (a.org, orderId);
             k in later.data.orders && later.data.orders[k].assignee == Execute(w, a, orderId, PoolClaim).value.data.orders[k].assignee
    ensures Execute(later, other, orderId, PoolClaim).Failure?
  {
    hide Good;
    hide Execute;
    SuccessMeansDone(w, a, orderId, PoolClaim);
    if Execute(later, other, orderId, PoolClaim).Success? {
      ClaimNeedsFree(later, other, orderId);
    }
  }

  lemma ClaimNeedsFree(w: World, a: Actor, orderId: string)
    requires Good(w.data) && Execute(w, a, orderId, PoolClaim).Success?
    ensures var k := (a.org, orderId); k in w.data.orders && (w.data.orders[k].assignee.None? || w.data.orders[k].assignee == Some(a.id))
  {
    hide Good;
    hide Decide;
    var k := (a.org, orderId);
    var t := Txn(OnOrder(k, CommandOf(w, a, k, PoolClaim), StartOf(PoolClaim)), "", 0);
    if Atomically(w.data, t).Success? {
      CommandTookEffect(w, a, k, PoolClaim, t);
      SoundAt(w.data, k);
      ClaimedFromPool(w.data.orders[k], a.id);
    }
  }

  lemma ClaimedFromPool(o: Order, who: string)
    requires Sound(o) && Decide(o, Command.ClaimFirst(who)).Success?
    ensures o.assignee.None?
  {
  }

  /** Presses of one button: the pool mode and the session tokens may be drawn anew. */
  predicate SameButton(b: Button, c: Button) {
    (b.PoolPublish? && c.PoolPublish?) || (b.TravelStart? && c.TravelStart?) || b == c
  }

  /** After a command succeeded, the same command either does nothing or is refused as
      an invalid transition on an order that shows it was done. */
  lemma DoneOnceIsAlreadyDone(o: Order, a: Actor, w: World, w': World, k: Key, b: Button, c: Button)
    requires Sound(o) && SameButton(b, c) && !b.TravelStart? && Decide(o, CommandOf(w, a, k, b)).Success?
    ensures var o' := Decide(o, CommandOf(w, a, k, b)).value.order;
            var again := Decide(o', CommandOf(w', a, k, c));
            || again == Success(Decision(o', None))
            || (again == Failure(InvalidTransition) && AlreadyDone(o', a, c))
  {
  }

  lemma ExecuteRefused(w: World, a: Actor, orderId: string, b: Button)
    requires Good(w.data) && orderId != "" && RoleMay(a.role, b) && !b.TravelStart?
    requires (a.org, orderId) in w.data.orders
    requires var o := w.data.orders[(a.org, orderId)];
             var again := Decide(o, CommandOf(w, a, (a.org, orderId), b));
             || again == Success(Decision(o, None))
             || (again == Failure(InvalidTransition) && AlreadyDone(o, a, b))
    ensures Execute(w, a, orderId, b).Success? && Execute(w, a, orderId, b).value.data == w.data
    ensures b.SubmitReport? ==> Execute(w, a, orderId, b).value.drafts == w.drafts - {((a.org, orderId), a.id)}
    ensures !b.SubmitReport? ==> Execute(w, a, orderId, b).value.drafts == w.drafts
  {
    hide Decide;
    hide AlreadyDone;
    hide Good;
    hide Atomically;
    var k := (a.org, orderId);
    var t := Txn(OnOrder(k, CommandOf(w, a, k, b), StartOf(b)), "", 0);
    RefusedAsDecided(w.data, t);
    if Decide(w.data.orders[k], t.request.command).Success? { NothingToDo(w.data, t); }
  }

  lemma NothingToDo(d: Data, t: Txn)
    requires Good(d) && t.request.OnOrder? && t.request.key in d.orders && !t.request.command.StartTravel?
    requires Decide(d.orders[t.request.key], t.request.command) == Success(Decision(d.orders[t.request.key], None))
    ensures Atomically(d, t) == Success(d)
  {
    hide Decide;
    hide Good;
    hide Roomy;
    GoodIsRoomy(d);
    UnchangedWrites(d, t.request.key);
    assert d.orders + map[t.request.key := d.orders[t.request.key]] == d.orders;
    CompletionsRecord(d.orders[t.request.key], t.request.command);
  }

  lemma CompletionsRecord(o: Order, c: Command)
    ensures Ends(c) && Decide(o, c).Success? ==> Decide(o, c).value.event.Some?
  {
  }

  /** Whether its worker crashed before clearing the report draft or after, pressing a button
      again right after its command committed replies success and ends in the world that one
      uninterrupted execution leaves: orders, sessions, outbox and drafts alike. */
  lemma ReplayIsHarmless(w: World, a: Actor, orderId: string, b: Button, c: Button)
    requires Good(w.data) && SameButton(b, c) && Execute(w, a, orderId, b).Success?
    ensures Good(Execute(w, a, orderId, b).value.data)
    ensures Execute(Execute(w, a, orderId, b).value, a, orderId, c) == Execute(w, a, orderId, b)
    ensures Execute(Served(w, a, orderId, b).value, a, orderId, c) == Execute(w, a, orderId, b)
  {
    hide Decide;
    hide AlreadyDone;
    hide Good;
    var w', k := Execute(w, a, orderId, b).value, (a.org, orderId);
    var half := Served(w, a, orderId, b).value;
    if b.TravelStart? {
      TravelReplay(w, a, orderId, b, c);
    } else {
      var t := Txn(OnOrder(k, CommandOf(w, a, k, b), StartOf(b)), "", 0);
      if Atomically(w.data, t).Success? {
        TransactionsKeepGood(w.data, t);
        CommandTookEffect(w, a, k, b, t);
        SoundAt(w.data, k);
        DoneOnceIsAlreadyDone(w.data.orders[k], a, w, w', k, b, c);
        DoneOnceIsAlreadyDone(w.data.orders[k], a, w, half, k, b, c);
      } else {
        RefusedAgain(w, w', a, k, b, c);
        RefusedAgain(w, half, a, k, b, c);
      }
      ExecuteRefused(w', a, orderId, c);
      ExecuteRefused(half, a, orderId, c);
      ClearedTwice(w.drafts, (k, a.id));
    }
  }

  lemma ClearedTwice(drafts: map<(Key, string), Report>, x: (Key, string))
    ensures drafts - {x} - {x} == drafts - {x}
  {
  }

  lemma CommandTookEffect(w: World, a: Actor, k: Key, b: Button, t: Txn)
    requires t == Txn(OnOrder(k, CommandOf(w, a, k, b), StartOf(b)), "", 0) && Atomically(w.data, t).Success?
    ensures k in w.data.orders && Decide(w.data.orders[k], CommandOf(w, a, k, b)).Success?
    ensures k in Atomically(w.data, t).value.orders
    ensures Atomically(w.data, t).value.orders[k] == Decide(w.data.orders[k], CommandOf(w, a, k, b)).value.order
  {
    hide Decide;
  }

  /** A press that was excused once is refused and excused in the same way again. */
  lemma RefusedAgain(w: World, w': World, a: Actor, k: Key, b: Button, c: Button)
    requires Good(w.data) && SameButton(b, c) && !b.TravelStart? && w'.data == w.data && k in w.data.orders
    requires Atomically(w.data, Txn(OnOrder(k, CommandOf(w, a, k, b), StartOf(b)), "", 0)) == Failure(InvalidTransition)
    requires AlreadyDone(w.data.orders[k], a, b)
    ensures AlreadyDone(w.data.orders[k], a, c)
    ensures Decide(w.data.orders[k], CommandOf(w', a, k, c)) == Failure(InvalidTransition)
  {
    hide Good;
    hide Atomically;
    hide MeetsEvidence;
    RefusedAsDecided(w.data, Txn(OnOrder(k, CommandOf(w, a, k, b), StartOf(b)), "", 0));
  }

  lemma TravelReplay(w: World, a: Actor, orderId: string, b: Button, c: Button)
    requires Good(w.data) && b.TravelStart? && c.TravelStart? && Execute(w, a, orderId, b).Success?
    ensures Good(Execute(w, a, orderId, b).value.data)
    ensures Execute(Execute(w, a, orderId, b).value, a, orderId, c) == Execute(w, a, orderId, b)
  {
    hide Good;
    hide Atomically;
    hide Travelling;
    if !Travelling(w.data, a) {
      var k := (a.org, orderId);
      var t := Txn(OnOrder(k, Command.StartTravel(a.id), b.start), "", 0);
      TransactionsKeepGood(w.data, t);
      TravelTookEffect(w.data, a, k, t);
    }
  }

  lemma TravelTookEffect(d: Data, a: Actor, k: Key, t: Txn)
    requires Good(d) && t.request.OnOrder? && t.request.key == k && t.request.command == Command.StartTravel(a.id) && k.0 == a.org
    requires Atomically(d, t).Success?
    ensures Travelling(Atomically(d, t).value, a)
  {
    var d' := Atomically(d, t).value;
    assert k in d'.orders && d'.orders[k].status == EnRoute && d'.orders[k].org == a.org;
  }

  // A press, crashed and redelivered ---------------------------------------------------

  predicate IsDomainError(e: Error) {
    e == InvalidTransition || e == EvidenceMissing
  }

  /** Handling one delivery of a press: claim, execute, complete. A domain error also
      completes the claim; any other error leaves it open for the retried update. */
  ghost function Handle(w: World, t: Token, a: Actor, orderId: string, b: Button, key: string, now: int)
    : (Result<World>, Token)
  {
    if !Claimable(t, a.org, a.role, key, now) then (Failure(InvalidTransition), t)
    else
      var claimed, r := Claimed(t, key), Execute(w, a, orderId, b);
      (r, if r.Success? || IsDomainError(r.error) then claimed.(completed := true) else claimed)
  }

  /** A press the rules of the order refuse, or that succeeds, is spent; after any other error the
      same delivery may be handled again until the token expires. No other claim key ever may. */
  lemma RefusedPressesAreSpent(w: World, t: Token, a: Actor, orderId: string, b: Button, key: string, now: int, other: string, later: int)
    requires Claimable(t, a.org, a.role, key, now) && (t.revoked <==> t.claimKey.Some?) && (t.completed ==> t.revoked) && other != key
    ensures var r, t' := Handle(w, t, a, orderId, b, key, now).0, Handle(w, t, a, orderId, b, key, now).1;
            var spent := r.Success? || r.error == InvalidTransition || r.error == EvidenceMissing;
            && r == Execute(w, a, orderId, b)
            && (Claimable(t', a.org, a.role, key, later) <==> !spent && t.expiresAt > later)
            && !Claimable(t', a.org, a.role, other, later)
  {
    hide Execute;
  }

  /** How far a worker got before it crashed, the claim not yet completed. */
  datatype Stage = BeforeCommand | AfterCommand | AfterClearing

  ghost function WorldAt(stage: Stage, w: World, a: Actor, orderId: string, b: Button): World
    requires Execute(w, a, orderId, b).Success?
  {
    match stage
    case BeforeCommand => w
    case AfterCommand => Served(w, a, orderId, b).value
    case AfterClearing => Execute(w, a, orderId, b).value
  }

  /** A worker claims a fresh token and crashes anywhere before completing the claim. The
      redelivered update replies success, ends in the world of one uninterrupted execution and
      completes the claim, if and only if the token has not expired by then; every other claim
      key is refused before and after, and so is this one once the claim is completed. */
  lemma RedeliveryCompletes(w: World, t: Token, a: Actor, orderId: string, b: Button, again: Button, key: string, other: string,
                            now: int, later: int, stage: Stage)
    requires Good(w.data) && other != key && if stage.BeforeCommand? then again == b else SameButton(b, again)
    requires !t.revoked && t.claimKey.None? && !t.completed && Claimable(t, a.org, a.role, key, now)
    requires Execute(w, a, orderId, b).Success?
    ensures var full, claimed := Execute(w, a, orderId, b), Claimed(t, key);
            var found := WorldAt(stage, w, a, orderId, b);
            && Handle(found, claimed, a, orderId, again, key, later)
               == (if t.expiresAt > later then (full, claimed.(completed := true)) else (Failure(InvalidTransition), claimed))
            && Handle(found, claimed, a, orderId, again, other, later) == (Failure(InvalidTransition), claimed)
            && Handle(full.value, claimed.(completed := true), a, orderId, again, key, later)
               == (Failure(InvalidTransition), claimed.(completed := true))
  {
    hide Execute;
    hide Served;
    ReplayIsHarmless(w, a, orderId, b, if stage.BeforeCommand? then b else again);
  }
}
