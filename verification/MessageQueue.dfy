/** The row protocol the inbox, the domain outbox and the outbound table share:
    pending -> processing -> done or dead, with claims, stale reclaims, crashes and
    retries. Every SQL statement is one atomic guarded update of a row. */
module MessageQueue {
  import opened Prelude

  datatype RowStatus = Pending | Processing | Delivered | Dead

  /** One row. Times are seconds; `payload` stands for every column no statement changes. */
  datatype Row = Row(payload: string, created: int, status: RowStatus, attempts: nat, nextAttempt: int, claimedAt: Option<int>)

  predicate Closed(s: RowStatus) {
    s == Delivered || s == Dead
  }

  /** The retry limit and the stale timeout, fixed for a run. */
  datatype Limits = Limits(maxAttempts: nat, staleAfter: nat)

  predicate Eligible(r: Row, now: int, stale: nat) {
    || (r.status == Pending && r.nextAttempt <= now)
    || (r.status == Processing && r.claimedAt.Some? && r.claimedAt.value < now - stale)
  }

  function NewRow(payload: string, now: int): Row {
    Row(payload, now, Pending, 0, now, None)
  }

  function ClaimedRow(r: Row, now: int): Row {
    r.(status := Processing, attempts := r.attempts + 1, claimedAt := Some(now))
  }

  /** A mark looks only at the status, not at who claimed the row. */
  function DeliveredRow(r: Row): Row {
    if r.status == Processing then r.(status := Delivered, claimedAt := None) else r
  }

  /** A failure mark decides by the attempt number the worker was handed. */
  function FailedRow(r: Row, attempt: nat, now: int, delay: nat, max: nat): Row {
    if r.status == Processing then
      r.(status := if attempt >= max then Dead else Pending, nextAttempt := now + delay, claimedAt := None)
    else r
  }

  function Candidates(rows: map<string, Row>, locked: set<string>, now: int, stale: nat): set<string> {
    set k | k in rows && k !in locked && Eligible(rows[k], now, stale)
  }

  function AllClaimed(rows: map<string, Row>, claimed: set<string>, now: int): map<string, Row> {
    map k | k in rows :: if k in claimed then ClaimedRow(rows[k], now) else rows[k]
  }

  lemma NothingClaimed(rows: map<string, Row>, now: int)
    ensures AllClaimed(rows, {}, now) == rows
  {
  }

  lemma OneMoreClaimed(rows: map<string, Row>, claimed: set<string>, k: string, now: int)
    requires k in rows && k !in claimed
    ensures var after := AllClaimed(rows, claimed, now);
            k in after && after[k] == rows[k] && after[k := ClaimedRow(rows[k], now)] == AllClaimed(rows, claimed + {k}, now)
  {
  }

  lemma {:induction false} OldestExists(rows: map<string, Row>, keys: set<string>)
    requires keys != {} && keys <= rows.Keys
    ensures exists k :: k in keys && forall j :: j in keys ==> rows[k].created <= rows[j].created
    decreases keys
  {
    var k :| k in keys;
    if keys != {k} {
      OldestExists(rows, keys - {k});
      var oldest :| oldest in keys - {k} && forall j :: j in keys - {k} ==> rows[oldest].created <= rows[j].created;
      var least := if rows[k].created <= rows[oldest].created then k else oldest;
      assert forall j :: j in keys ==> rows[least].created <= rows[j].created;
    } else {
      assert forall j :: j in keys ==> rows[k].created <= rows[j].created;
    }
  }

  class MessageTable {
    var rows: map<string, Row>

    constructor ()
      ensures rows == map[]
    {
      rows := map[];
    }

    method Accept(key: string, payload: string, now: int) returns (inserted: bool)
      modifies this
      ensures inserted <==> key !in old(rows)
      ensures rows == if inserted then old(rows)[key := NewRow(payload, now)] else old(rows)
    {
      inserted := key !in rows;
      if inserted { rows := rows[key := NewRow(payload, now)]; }
    }

    /** Claims up to `limit` of the eligible rows no other transaction holds locked, the oldest
        first, and as many as there are; every claimed row, and no other, moves on by one attempt. */
    method Claim(limit: nat, now: int, stale: nat, locked: set<string>) returns (r: Result<set<string>>)
      modifies this
      ensures r.Failure? <==> !(1 <= limit <= 1000)
      ensures r.Failure? ==> r.error == ValueError && rows == old(rows)
      ensures r.Success? ==>
                var claimed := r.value;
                var candidates := Candidates(old(rows), locked, now, stale);
                && claimed <= candidates && |claimed| <= limit && (|claimed| < limit ==> claimed == candidates)
                && (forall c, k :: c in claimed && k in candidates - claimed ==> old(rows)[c].created <= old(rows)[k].created)
                && rows == AllClaimed(old(rows), claimed, now)
    {
      if !(1 <= limit <= 1000) { return Failure(ValueError); }
      hide Eligible;
      hide AllClaimed;
      hide ClaimedRow;
      var before := rows;
      var candidates := Candidates(before, locked, now, stale);
      ghost var all := candidates;
      assert all <= before.Keys - locked;
      assert AllClaimed(before, {}, now) == before by { NothingClaimed(before, now); }
      var claimed: set<string> := {};
      while candidates != {} && |claimed| < limit
        invariant claimed !! candidates && |claimed| <= limit
        invariant claimed + candidates == all
        invariant forall c, k :: c in claimed && k in candidates ==> before[c].created <= before[k].created
        invariant rows == AllClaimed(before, claimed, now)
        decreases candidates
      {
        OldestExists(before, candidates);
        var k :| k in candidates && forall j :: j in candidates ==> before[k].created <= before[j].created;
        OneMoreClaimed(before, claimed, k, now);
        candidates := candidates - {k};
        claimed := claimed + {k};
        rows := rows[k := ClaimedRow(rows[k], now)];
      }
      return Success(claimed);
    }

    method MarkDelivered(key: string)
      modifies this
      ensures rows == if key in old(rows) then old(rows)[key := DeliveredRow(old(rows)[key])] else old(rows)
    {
      if key in rows && rows[key].status == Processing {
        rows := rows[key := rows[key].(status := Delivered, claimedAt := None)];
      }
    }

    method MarkFailed(key: string, attempt: nat, now: int, delay: nat, max: nat)
      modifies this
      ensures rows == if key in old(rows) then old(rows)[key := FailedRow(old(rows)[key], attempt, now, delay, max)] else old(rows)
    {
      var dead := attempt >= max;
      if key in rows && rows[key].status == Processing {
        rows := rows[key := rows[key].(status := if dead then Dead else Pending, nextAttempt := now + delay, claimedAt := None)];
      }
    }
  }

  // Workers and runs -------------------------------------------------------------------

  /** What a worker holds after a claim: the key and the attempt number it was handed. */
  datatype Lease = Lease(key: string, attempt: nat, at: int)

  /** The book-keeping of one key: its claims, those that took over a stale row, and
      the attempts whose failure mark put the row back. */
  datatype Ledger = Ledger(claims: nat, reclaims: nat, retried: set<nat>)

  datatype State = State(now: int, rows: map<string, Row>, leases: set<Lease>, ledgers: map<string, Ledger>)

  datatype Action =
    | Accept(key: string, payload: string)
    | Claim(key: string)
    | MarkDelivered(lease: Lease)
    | MarkFailed(lease: Lease, delay: nat)
    | Crash(lease: Lease)
    | Tick(seconds: nat)

  const START := State(0, map[], {}, map[])

  function Next(s: State, a: Action, l: Limits): State {
    match a
    case Accept(k, payload) =>
      if k in s.rows then s else s.(rows := s.rows[k := NewRow(payload, s.now)], ledgers := s.ledgers[k := Ledger(0, 0, {})])
    case Claim(k) =>
      if k in s.rows && k in s.ledgers && Eligible(s.rows[k], s.now, l.staleAfter) then
        var row, g := ClaimedRow(s.rows[k], s.now), s.ledgers[k];
        var reclaims := g.reclaims + (if s.rows[k].status == Processing then 1 else 0);
        s.(rows := s.rows[k := row], leases := s.leases + {Lease(k, row.attempts, s.now)},
           ledgers := s.ledgers[k := g.(claims := g.claims + 1, reclaims := reclaims)])
      else s
    case MarkDelivered(x) =>
      if x in s.leases && x.key in s.rows then
        s.(rows := s.rows[x.key := DeliveredRow(s.rows[x.key])], leases := s.leases - {x})
      else s
    case MarkFailed(x, delay) =>
      if x in s.leases && x.key in s.rows && x.key in s.ledgers then
        var row := FailedRow(s.rows[x.key], x.attempt, s.now, delay, l.maxAttempts);
        var g := s.ledgers[x.key];
        var retried := g.retried + (if s.rows[x.key].status == Processing && row.status == Pending then {x.attempt} else {});
        s.(rows := s.rows[x.key := row], leases := s.leases - {x}, ledgers := s.ledgers[x.key := g.(retried := retried)])
      else s
    case Crash(x) => s.(leases := s.leases - {x})
    case Tick(seconds) => s.(now := s.now + seconds)
  }

  function Run(schedule: seq<Action>, l: Limits): State {
    if schedule == [] then START else Next(Run(schedule[..|schedule| - 1], l), schedule[|schedule| - 1], l)
  }

  // What every run keeps ---------------------------------------------------------------

  ghost predicate LeaseSound(s: State, x: Lease) {
    && x.key in s.rows && 1 <= x.attempt <= s.rows[x.key].attempts && x.at <= s.now
    && x.key in s.ledgers && x.attempt !in s.ledgers[x.key].retried
  }

  ghost predicate RowSound(s: State, k: string, l: Limits) {
    k in s.rows ==>
      && k in s.ledgers
      && var r, g := s.rows[k], s.ledgers[k];
      && (r.status == Processing <==> r.claimedAt.Some?)
      && (r.claimedAt.Some? ==> r.claimedAt.value <= s.now)
      && r.attempts == g.claims && g.reclaims <= g.claims
      && (forall a :: a in g.retried ==> 1 <= a < l.maxAttempts && a <= r.attempts)
      && g.claims - g.reclaims + (if r.status == Pending then 1 else 0) <= 1 + |g.retried|
  }

  ghost predicate Sound(s: State, l: Limits) {
    && s.ledgers.Keys == s.rows.Keys
    && (forall k :: RowSound(s, k, l))
    && (forall x :: x in s.leases ==> LeaseSound(s, x))
    && (forall x, y :: x in s.leases && y in s.leases && x.key == y.key && x.attempt == y.attempt ==> x == y)
  }

  ghost predicate LeasesSound(s: State) {
    && (forall x :: x in s.leases ==> LeaseSound(s, x))
    && (forall x, y :: x in s.leases && y in s.leases && x.key == y.key && x.attempt == y.attempt ==> x == y)
  }

  lemma StepKeepsLeases(s: State, a: Action, l: Limits)
    requires Sound(s, l)
    ensures LeasesSound(Next(s, a, l))
  {
    match a {
      case MarkFailed(x, _) => assert x in s.leases ==> LeaseSound(s, x);
      case Claim(k) => assert RowSound(s, k, l);
      case _ =>
    }
  }

  lemma StepKeepsRow(s: State, a: Action, l: Limits, k: string)
    requires Sound(s, l)
    ensures RowSound(Next(s, a, l), k, l)
  {
    assert RowSound(s, k, l);
    match a {
      case MarkFailed(x, _) => assert x in s.leases ==> LeaseSound(s, x);
      case _ =>
    }
  }

  lemma StepKeepsSound(s: State, a: Action, l: Limits)
    requires Sound(s, l)
    ensures Sound(Next(s, a, l), l)
  {
    hide RowSound;
    hide LeaseSound;
    StepKeepsLeases(s, a, l);
    forall k ensures RowSound(Next(s, a, l), k, l) { StepKeepsRow(s, a, l, k); }
  }

  lemma {:induction false} RunKeepsSound(schedule: seq<Action>, l: Limits)
    ensures Sound(Run(schedule, l), l)
  {
    if schedule != [] {
      RunKeepsSound(schedule[..|schedule| - 1], l);
      StepKeepsSound(Run(schedule[..|schedule| - 1], l), schedule[|schedule| - 1], l);
    }
  }

  lemma {:induction false} FewNumbers(numbers: set<nat>, max: nat)
    requires max >= 1 && forall a :: a in numbers ==> 1 <= a < max
    ensures |numbers| <= max - 1
  {
    if max == 1 {
      assert numbers == {};
    } else {
      FewNumbers(numbers - {max - 1}, max - 1);
    }
  }

  /** In every run, with any crashes and late marks, the attempts of a row count its
      claims, and at most `maxAttempts` of those claims took the row from pending: each
      further claim took over a stale row. */
  lemma AttemptsAreBounded(schedule: seq<Action>, l: Limits, k: string)
    requires l.maxAttempts >= 1 && k in Run(schedule, l).rows
    ensures var s := Run(schedule, l);
            && k in s.ledgers && s.rows[k].attempts == s.ledgers[k].claims
            && s.ledgers[k].claims <= l.maxAttempts + s.ledgers[k].reclaims
  {
    RunKeepsSound(schedule, l);
    assert RowSound(Run(schedule, l), k, l);
    FewNumbers(Run(schedule, l).ledgers[k].retried, l.maxAttempts);
  }

  /** Rows are never lost, keep their payload, never give back an attempt, and never
      change again once they are delivered or dead. */
  ghost predicate RowOnward(s: State, s': State, k: string) {
    k in s.rows ==>
      && k in s'.rows && s'.rows[k].payload == s.rows[k].payload && s'.rows[k].attempts >= s.rows[k].attempts
      && (Closed(s.rows[k].status) ==> s'.rows[k] == s.rows[k])
  }

  lemma {:induction false} RowsOnlyMoveOn(schedule: seq<Action>, more: seq<Action>, l: Limits, k: string)
    ensures RowOnward(Run(schedule, l), Run(schedule + more, l), k)
  {
    if more == [] {
      assert schedule + more == schedule;
    } else {
      assert (schedule + more)[..|schedule + more| - 1] == schedule + more[..|more| - 1];
      RowsOnlyMoveOn(schedule, more[..|more| - 1], l, k);
    }
  }

  // When a row is claimable ------------------------------------------------------------------

  /** The statement has a chance to claim the row. */
  predicate Candidate(s: State, k: string, l: Limits) {
    k in Candidates(s.rows, {}, s.now, l.staleAfter)
  }

  /** The row has neither been claimed nor changed in between. */
  ghost predicate Unclaimed(s: State, s': State, k: string) {
    && k in s.rows && k in s'.rows && k in s.ledgers && k in s'.ledgers
    && s'.rows[k] == s.rows[k] && s'.ledgers[k].claims == s.ledgers[k].claims
  }

  /** A worker fails with an attempt that may be repeated. */
  ghost predicate PutsBack(s: State, x: Lease, l: Limits) {
    x in s.leases && x.key in s.rows && s.rows[x.key].status == Processing && x.attempt < l.maxAttempts
  }

  lemma PendingRowRests(s: State, a: Action, l: Limits, k: string)
    requires k in s.rows && k in s.ledgers && s.rows[k].status == Pending
    requires a == Claim(k) ==> s.now < s.rows[k].nextAttempt
    ensures Unclaimed(s, Next(s, a, l), k) && Next(s, a, l).now >= s.now
  {
  }

  /** A pending row rests through any actions that do not claim it, and through all while its time
      has not come. */
  lemma {:induction false} PendingRowsRest(before: seq<Action>, k: string, more: seq<Action>, l: Limits)
    requires var s := Run(before, l); k in s.rows && k in s.ledgers && s.rows[k].status == Pending
    ensures var s, s' := Run(before, l), Run(before + more, l);
            && s'.now >= s.now
            && (s'.now < s.rows[k].nextAttempt || Claim(k) !in more ==> Unclaimed(s, s', k))
  {
    hide Next;
    hide Run;
    if more == [] {
      assert before + more == before;
    } else {
      var n := |more| - 1;
      PendingRowsRest(before, k, more[..n], l);
      assert before + more == before + more[..n] + [more[n]];
      RunSnoc(before + more[..n], more[n], l);
      var s1 := Run(before + more[..n], l);
      ClockRuns(s1, more[n], l);
      if Run(before + more, l).now < Run(before, l).rows[k].nextAttempt || Claim(k) !in more {
        PendingRowRests(s1, more[n], l, k);
      }
    }
  }

  lemma ClockRuns(s: State, a: Action, l: Limits)
    ensures Next(s, a, l).now >= s.now
  {
  }

  lemma PutBack(s: State, x: Lease, delay: nat, l: Limits)
    requires Sound(s, l) && PutsBack(s, x, l)
    ensures var s0 := Next(s, MarkFailed(x, delay), l);
            && x.key in s0.rows && x.key in s0.ledgers && s0.now == s.now && s0.rows[x.key].status == Pending
            && s0.rows[x.key].attempts == s.rows[x.key].attempts && s0.rows[x.key].nextAttempt == s.now + delay
  {
    assert RowSound(s, x.key, l);
  }

  /** A row put back with a delay is left alone by every claim, late mark and crash until the delay
      is over, and from then on it is a candidate until somebody claims it. */
  lemma BackoffIsKept(before: seq<Action>, x: Lease, delay: nat, more: seq<Action>, l: Limits)
    requires PutsBack(Run(before, l), x, l)
    ensures var s, s0, s' := Run(before, l), Run(before + [MarkFailed(x, delay)], l), Run(before + [MarkFailed(x, delay)] + more, l);
            && s'.now >= s.now
            && (s'.now < s.now + delay || Claim(x.key) !in more ==>
                  && Unclaimed(s0, s', x.key) && s'.rows[x.key].status == Pending && s'.rows[x.key].attempts == s.rows[x.key].attempts
                  && (Candidate(s', x.key, l) <==> s'.now >= s.now + delay))
  {
    hide Next;
    hide Run;
    RunKeepsSound(before, l);
    RunSnoc(before, MarkFailed(x, delay), l);
    PutBack(Run(before, l), x, delay, l);
    PendingRowsRest(before + [MarkFailed(x, delay)], x.key, more, l);
  }

  /** A new row is a candidate at once and until somebody claims it. */
  lemma NewRowsWait(before: seq<Action>, k: string, payload: string, more: seq<Action>, l: Limits)
    requires k !in Run(before, l).rows && Claim(k) !in more
    ensures var s := Run(before + [Accept(k, payload)] + more, l);
            k in s.rows && s.rows[k].payload == payload && s.rows[k].attempts == 0 && s.rows[k].created == Run(before, l).now
            && Candidate(s, k, l)
  {
    RunSnoc(before, Accept(k, payload), l);
    PendingRowsRest(before + [Accept(k, payload)], k, more, l);
  }

  /** The row is not marked by anybody. */
  ghost predicate Unmarked(more: seq<Action>, k: string) {
    forall i :: 0 <= i < |more| ==>
      match more[i]
      case MarkDelivered(x) => x.key != k
      case MarkFailed(x, _) => x.key != k
      case Claim(j) => j != k
      case _ => true
  }

  /** A claimed row that nobody marks is out of reach for exactly the stale timeout. */
  lemma {:induction false} ClaimsLapse(before: seq<Action>, k: string, more: seq<Action>, l: Limits)
    requires Candidate(Run(before, l), k, l) && Unmarked(more, k)
    ensures var s, s' := Run(before, l), Run(before + [Claim(k)] + more, l);
            && k in s'.rows && s'.rows[k].status == Processing && s'.rows[k].attempts == s.rows[k].attempts + 1
            && s'.rows[k].claimedAt == Some(s.now) && s'.now >= s.now
            && (Candidate(s', k, l) <==> s'.now > s.now + l.staleAfter)
  {
    RunKeepsSound(before, l);
    assert RowSound(Run(before, l), k, l);
    RunSnoc(before, Claim(k), l);
    if more == [] {
      assert before + [Claim(k)] + more == before + [Claim(k)];
    } else {
      var n := |more| - 1;
      assert before + [Claim(k)] + more == before + [Claim(k)] + more[..n] + [more[n]];
      RunSnoc(before + [Claim(k)] + more[..n], more[n], l);
      ClaimsLapse(before, k, more[..n], l);
      assert match more[n] case Claim(j) => j != k case _ => true;
    }
  }

  // Leases under the timing assumption ---------------------------------------------------

  /** No worker holds an unmarked claim beyond the stale timeout. */
  ghost predicate Prompt(s: State, l: Limits) {
    forall x :: x in s.leases ==> s.now <= x.at + l.staleAfter
  }

  ghost predicate AlwaysPrompt(schedule: seq<Action>, l: Limits) {
    forall n :: 0 <= n <= |schedule| ==> Prompt(Run(schedule[..n], l), l)
  }

  /** A lease is the row's current claim. */
  ghost predicate Holds(s: State, x: Lease) {
    && x.key in s.rows && s.rows[x.key].status == Processing
    && s.rows[x.key].attempts == x.attempt && s.rows[x.key].claimedAt == Some(x.at)
  }

  lemma StepKeepsHolding(s: State, a: Action, l: Limits)
    requires Sound(s, l) && Prompt(s, l) && forall x :: x in s.leases ==> Holds(s, x)
    ensures forall x :: x in Next(s, a, l).leases ==> Holds(Next(s, a, l), x)
  {
    var s' := Next(s, a, l);
    forall x | x in s'.leases ensures Holds(s', x) {
      if x in s.leases {
        assert Holds(s, x) && LeaseSound(s, x);
        match a {
          case MarkDelivered(y) => assert y in s.leases ==> Holds(s, y);
          case MarkFailed(y, _) => assert y in s.leases ==> Holds(s, y);
          case _ =>
        }
      }
    }
  }

  /** If every claim is marked, or its worker is gone, within the stale timeout, then an
      unmarked claim is its row's current one: at most one worker holds a row at a time. */
  lemma {:induction false} PromptWorkersExclude(schedule: seq<Action>, l: Limits)
    requires AlwaysPrompt(schedule, l)
    ensures forall x :: x in Run(schedule, l).leases ==> Holds(Run(schedule, l), x)
    ensures Exclusive(Run(schedule, l))
  {
    if schedule != [] {
      var n := |schedule| - 1;
      PromptBefore(schedule, l);
      PromptWorkersExclude(schedule[..n], l);
      RunKeepsSound(schedule[..n], l);
      StepKeepsHolding(Run(schedule[..n], l), schedule[n], l);
    }
    RunKeepsSound(schedule, l);
    var s := Run(schedule, l);
    forall x, y | x in s.leases && y in s.leases && x.key == y.key ensures x == y {
      assert Holds(s, x) && Holds(s, y);
    }
  }

  lemma PromptBefore(schedule: seq<Action>, l: Limits)
    requires schedule != [] && AlwaysPrompt(schedule, l)
    ensures AlwaysPrompt(schedule[..|schedule| - 1], l) && Prompt(Run(schedule[..|schedule| - 1], l), l)
  {
    var n := |schedule| - 1;
    forall m | 0 <= m <= n ensures Prompt(Run(schedule[..n][..m], l), l) {
      assert schedule[..n][..m] == schedule[..m];
    }
    assert schedule[..n][..n] == schedule[..n];
  }

  /** No two workers hold one row. */
  ghost predicate Exclusive(s: State) {
    forall x, y :: x in s.leases && y in s.leases && x.key == y.key ==> x == y
  }

  /** As long as every earlier moment was prompt, every unmarked claim is current. */
  lemma {:induction false} HoldingUpTo(schedule: seq<Action>, l: Limits, n: nat)
    requires n <= |schedule| && forall m :: 0 <= m < n ==> Prompt(Run(schedule[..m], l), l)
    ensures forall x :: x in Run(schedule[..n], l).leases ==> Holds(Run(schedule[..n], l), x)
  {
    if n > 0 {
      HoldingUpTo(schedule, l, n - 1);
      RunKeepsSound(schedule[..n - 1], l);
      assert schedule[..n][..n - 1] == schedule[..n - 1];
      StepKeepsHolding(Run(schedule[..n - 1], l), schedule[n - 1], l);
    }
  }

  /** A worker that keeps its claim too long can be joined by another at once. */
  lemma SlowWorkerIsJoined(schedule: seq<Action>, l: Limits, x: Lease)
    requires var s := Run(schedule, l); x in s.leases && Holds(s, x) && s.now > x.at + l.staleAfter
    ensures !Exclusive(Run(schedule + [Claim(x.key)], l))
  {
    RunKeepsSound(schedule, l);
    var s := Run(schedule, l);
    assert RowSound(s, x.key, l);
    RunSnoc(schedule, Claim(x.key), l);
    var again := Lease(x.key, s.rows[x.key].attempts + 1, s.now);
    assert x in Run(schedule + [Claim(x.key)], l).leases && again in Run(schedule + [Claim(x.key)], l).leases;
  }

  lemma PromptClaimIsExclusive(schedule: seq<Action>, l: Limits, n: nat, k: string)
    requires AlwaysPrompt(schedule, l) && n <= |schedule|
    ensures Exclusive(Run(schedule[..n] + [Claim(k)], l))
  {
    var longer := schedule[..n] + [Claim(k)];
    RunSnoc(schedule[..n], Claim(k), l);
    forall m | 0 <= m <= |longer| ensures Prompt(Run(longer[..m], l), l) {
      if m <= n {
        assert longer[..m] == schedule[..m];
      } else {
        assert longer[..m] == longer && Prompt(Run(schedule[..n], l), l);
      }
    }
    PromptWorkersExclude(longer, l);
  }

  ghost predicate ClaimsExclude(schedule: seq<Action>, l: Limits, n: nat)
    requires n <= |schedule|
  {
    forall k :: Exclusive(Run(schedule[..n] + [Claim(k)], l))
  }

  /** A claim can never give a row a second holder at any moment of a run if and only if every
      claim of the run is marked, or its worker gone, within the stale timeout. */
  lemma ExclusionNeedsPromptWorkers(schedule: seq<Action>, l: Limits)
    ensures AlwaysPrompt(schedule, l) <==> forall n :: 0 <= n <= |schedule| ==> ClaimsExclude(schedule, l, n)
  {
    if AlwaysPrompt(schedule, l) {
      forall n, k | 0 <= n <= |schedule| ensures Exclusive(Run(schedule[..n] + [Claim(k)], l)) {
        PromptClaimIsExclusive(schedule, l, n, k);
      }
    }
    if forall n :: 0 <= n <= |schedule| ==> ClaimsExclude(schedule, l, n) {
      PromptUpTo(schedule, l, |schedule|);
    }
  }

  lemma {:induction false} PromptUpTo(schedule: seq<Action>, l: Limits, n: nat)
    requires n <= |schedule| && forall m :: 0 <= m <= |schedule| ==> ClaimsExclude(schedule, l, m)
    ensures forall m :: 0 <= m <= n ==> Prompt(Run(schedule[..m], l), l)
  {
    hide Run;
    if n > 0 { PromptUpTo(schedule, l, n - 1); }
    HoldingUpTo(schedule, l, n);
    forall x | x in Run(schedule[..n], l).leases ensures Run(schedule[..n], l).now <= x.at + l.staleAfter {
      if Run(schedule[..n], l).now > x.at + l.staleAfter {
        assert ClaimsExclude(schedule, l, n);
        SlowWorkerIsJoined(schedule[..n], l, x);
        assert false;
      }
    }
  }

  /** Two workers on one row: the first is slower than the stale timeout. */
  lemma SlowWorkersOverlap(l: Limits)
    ensures var s := Run([Accept("m", ""), Claim("m"), Tick(l.staleAfter + 1), Claim("m")], l);
            s.leases == {Lease("m", 1, 0), Lease("m", 2, l.staleAfter + 1)} && !Exclusive(s)
  {
    var waiting := State(0, map["m" := NewRow("", 0)], {}, map["m" := Ledger(0, 0, {})]);
    assert Next(START, Accept("m", ""), l) == waiting;
    assert [Accept("m", "")][..0] == [];
    assert Run([Accept("m", "")], l) == waiting;
    RunThree([Accept("m", "")], Claim("m"), Tick(l.staleAfter + 1), Claim("m"), l);
    assert [Accept("m", "")] + [Claim("m"), Tick(l.staleAfter + 1), Claim("m")]
        == [Accept("m", ""), Claim("m"), Tick(l.staleAfter + 1), Claim("m")];
    var s := Run([Accept("m", ""), Claim("m"), Tick(l.staleAfter + 1), Claim("m")], l);
    assert Lease("m", 1, 0) in s.leases && Lease("m", 2, l.staleAfter + 1) in s.leases;
  }

  ghost predicate CrashFree(schedule: seq<Action>) {
    forall n :: 0 <= n < |schedule| ==> !schedule[n].Crash?
  }

  ghost predicate Held(s: State, k: string) {
    exists x :: x in s.leases && x.key == k
  }

  ghost predicate NeverReclaimed(s: State, l: Limits, k: string) {
    k in s.rows ==>
      && k in s.ledgers && s.ledgers[k].reclaims == 0
      && (s.rows[k].status == Processing ==> Held(s, k))
      && (s.rows[k].status == Dead ==> s.rows[k].attempts == l.maxAttempts)
      && (s.rows[k].status == Pending ==> s.rows[k].attempts < l.maxAttempts)
      && s.rows[k].attempts <= l.maxAttempts
  }

  lemma StepNeverReclaims(s: State, a: Action, l: Limits, k: string)
    requires l.maxAttempts >= 1 && Sound(s, l) && Prompt(s, l) && !a.Crash?
    requires forall x :: x in s.leases ==> Holds(s, x)
    requires NeverReclaimed(s, l, k)
    ensures NeverReclaimed(Next(s, a, l), l, k)
  {
    var s' := Next(s, a, l);
    if k in s.rows && s.rows[k].status == Processing {
      var x :| x in s.leases && x.key == k;
      assert Holds(s, x);
      if s'.rows[k].status == Processing { assert x in s'.leases; }
    } else if k in s'.rows && s'.rows[k].status == Processing {
      assert Lease(k, s'.rows[k].attempts, s.now) in s'.leases;
    }
    match a {
      case MarkFailed(y, _) => if y in s.leases { assert Holds(s, y); }
      case _ =>
    }
  }

  /** If moreover no worker crashes, no row is ever taken over, every row is claimed at
      most `maxAttempts` times, and a dead row was claimed exactly that often. */
  lemma {:induction false} PromptCrashFreeRuns(schedule: seq<Action>, l: Limits, k: string)
    requires l.maxAttempts >= 1 && AlwaysPrompt(schedule, l) && CrashFree(schedule)
    ensures NeverReclaimed(Run(schedule, l), l, k)
  {
    if schedule != [] {
      var n := |schedule| - 1;
      PromptBefore(schedule, l);
      PromptCrashFreeRuns(schedule[..n], l, k);
      PromptWorkersExclude(schedule[..n], l);
      RunKeepsSound(schedule[..n], l);
      StepNeverReclaims(Run(schedule[..n], l), schedule[n], l, k);
    }
  }

  // Without it -------------------------------------------------------------------------

  /** A message whose worker crashes every time. */
  function CrashLoop(n: nat, l: Limits): seq<Action> {
    if n == 0 then [Accept("m", "")]
    else CrashLoop(n - 1, l) + [Claim("m"), Crash(Lease("m", n, (n - 1) * (l.staleAfter + 1))), Tick(l.staleAfter + 1)]
  }

  lemma RunSnoc(schedule: seq<Action>, a: Action, l: Limits)
    ensures Run(schedule + [a], l) == Next(Run(schedule, l), a, l)
  {
    assert (schedule + [a])[..|schedule|] == schedule;
  }

  lemma RunThree(schedule: seq<Action>, a: Action, b: Action, c: Action, l: Limits)
    ensures Run(schedule + [a, b, c], l) == Next(Next(Next(Run(schedule, l), a, l), b, l), c, l)
  {
    assert schedule + [a, b, c] == schedule + [a] + [b] + [c];
    RunSnoc(schedule + [a] + [b], c, l);
    RunSnoc(schedule + [a], b, l);
    RunSnoc(schedule, a, l);
  }

  /** The retry limit does not bound crashes: for every n some run claims a row n times
      and leaves it processing, never dead. */
  lemma {:induction false} CrashesEscapeTheLimit(n: nat, l: Limits)
    ensures var s := Run(CrashLoop(n, l), l);
            && "m" in s.rows && s.rows["m"].attempts == n && !Closed(s.rows["m"].status)
            && "m" in s.ledgers && s.leases == {} && s.now == n * (l.staleAfter + 1)
            && Eligible(s.rows["m"], s.now, l.staleAfter)
  {
    if n == 0 {
      assert CrashLoop(0, l)[..0] == [];
    } else {
      var at := (n - 1) * (l.staleAfter + 1);
      CrashesEscapeTheLimit(n - 1, l);
      RunThree(CrashLoop(n - 1, l), Claim("m"), Crash(Lease("m", n, at)), Tick(l.staleAfter + 1), l);
      assert n * (l.staleAfter + 1) == at + l.staleAfter + 1;
    }
  }

  /** A message that fails `n` times at once and is put back each time. */
  function Failing(n: nat): seq<Action> {
    if n == 0 then [Accept("m", "")] else Failing(n - 1) + [Claim("m"), MarkFailed(Lease("m", n, 0), 0)]
  }

  /** Then it is claimed once more, and its worker and `r` successors crash or stall. */
  function FailingThenCrashing(l: Limits, r: nat): seq<Action>
    requires l.maxAttempts >= 1
  {
    if r == 0 then Failing(l.maxAttempts - 1) + [Claim("m")]
    else
      FailingThenCrashing(l, r - 1)
      + [Crash(Lease("m", l.maxAttempts + r - 1, (r - 1) * (l.staleAfter + 1))), Tick(l.staleAfter + 1), Claim("m")]
  }

  function UpTo(n: nat): set<nat> {
    if n == 0 then {} else UpTo(n - 1) + {n}
  }

  /** The state after `n` failures. */
  function Failed(n: nat): State {
    State(0, map["m" := Row("", 0, Pending, n, 0, None)], {}, map["m" := Ledger(n, 0, UpTo(n))])
  }

  lemma {:induction false} FailingRun(n: nat, l: Limits)
    requires n < l.maxAttempts
    ensures Run(Failing(n), l) == Failed(n)
  {
    if n == 0 {
      assert Failing(0)[..0] == [] && UpTo(0) == {};
    } else {
      var a, b := Claim("m"), MarkFailed(Lease("m", n, 0), 0);
      FailingRun(n - 1, l);
      RunSnoc(Failing(n - 1), a, l);
      RunSnoc(Failing(n - 1) + [a], b, l);
      assert Failing(n - 1) + [a] + [b] == Failing(n);
      FailsOnce(n, l);
    }
  }

  lemma FailsOnce(n: nat, l: Limits)
    requires 1 <= n < l.maxAttempts
    ensures Next(Next(Failed(n - 1), Claim("m"), l), MarkFailed(Lease("m", n, 0), 0), l) == Failed(n)
  {
    var claimed := State(0, map["m" := Row("", 0, Processing, n, 0, Some(0))], {Lease("m", n, 0)}, map["m" := Ledger(n, 0, UpTo(n - 1))]);
    assert Next(Failed(n - 1), Claim("m"), l) == claimed;
    assert UpTo(n) == UpTo(n - 1) + {n};
    assert claimed.leases - {Lease("m", n, 0)} == {};
  }

  /** The state after the last allowed attempt and `r` reclaims. */
  function Stalled(l: Limits, r: nat): State
    requires l.maxAttempts >= 1
  {
    var now, attempts := r * (l.staleAfter + 1), l.maxAttempts + r;
    State(now, map["m" := Row("", 0, Processing, attempts, 0, Some(now))], {Lease("m", attempts, now)},
          map["m" := Ledger(attempts, r, UpTo(l.maxAttempts - 1))])
  }

  lemma StallsOnce(l: Limits, r: nat)
    requires l.maxAttempts >= 1 && r >= 1
    ensures var s := Stalled(l, r - 1);
            var crash := Crash(Lease("m", l.maxAttempts + r - 1, (r - 1) * (l.staleAfter + 1)));
            Next(Next(Next(s, crash, l), Tick(l.staleAfter + 1), l), Claim("m"), l) == Stalled(l, r)
  {
    var s, now := Stalled(l, r - 1), r * (l.staleAfter + 1);
    assert now == (r - 1) * (l.staleAfter + 1) + l.staleAfter + 1;
    var waiting := State(now, s.rows, {}, s.ledgers);
    var crash := Crash(Lease("m", l.maxAttempts + r - 1, (r - 1) * (l.staleAfter + 1)));
    assert s.leases - {crash.lease} == {};
    assert Next(Next(s, crash, l), Tick(l.staleAfter + 1), l) == waiting;
    assert Next(waiting, Claim("m"), l) == Stalled(l, r);
  }

  lemma StallsFirst(l: Limits)
    requires l.maxAttempts >= 1
    ensures Next(Failed(l.maxAttempts - 1), Claim("m"), l) == Stalled(l, 0)
  {
    assert Failed(l.maxAttempts - 1).leases + {Lease("m", l.maxAttempts, 0)} == {Lease("m", l.maxAttempts, 0)};
  }

  lemma {:induction false} StalledRun(l: Limits, r: nat)
    requires l.maxAttempts >= 1
    ensures Run(FailingThenCrashing(l, r), l) == Stalled(l, r)
  {
    hide Next;
    hide Run;
    hide Failed;
    hide Stalled;
    if r == 0 {
      FailingRun(l.maxAttempts - 1, l);
      RunSnoc(Failing(l.maxAttempts - 1), Claim("m"), l);
      StallsFirst(l);
    } else {
      StalledRun(l, r - 1);
      var at := (r - 1) * (l.staleAfter + 1);
      RunThree(FailingThenCrashing(l, r - 1), Crash(Lease("m", l.maxAttempts + r - 1, at)), Tick(l.staleAfter + 1), Claim("m"), l);
      StallsOnce(l, r);
    }
  }

  /** The bound is attained: for every limit and every number of reclaims some run claims a row
      exactly `maxAttempts` plus that many times. */
  lemma BoundIsAttained(l: Limits, r: nat)
    requires l.maxAttempts >= 1
    ensures var s := Run(FailingThenCrashing(l, r), l);
            && "m" in s.rows && "m" in s.ledgers && s.ledgers["m"].reclaims == r
            && s.rows["m"].attempts == s.ledgers["m"].claims == l.maxAttempts + r
  {
    StalledRun(l, r);
  }
}
