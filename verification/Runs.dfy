/** What holds after every schedule of interleaved commands. */
module Runs {
  import opened Prelude
  import opened Domain
  import opened WorkOrders
  import opened MemoryStore
  import opened Service
  import opened Interleaving
  import OrderNumbers

  /** The transactions one after another, each with the store to itself. */
  ghost function Serial(history: seq<Txn>): Result<Data> {
    if history == [] then Success(EMPTY)
    else
      match Serial(history[..|history| - 1])
      case Failure(e) => Failure(e)
      case Success(d) => Atomically(d, history[|history| - 1])
  }

  // Public numbers -------------------------------------------------------------------

  function Counter(c: Config, org: string): nat {
    if org in c.counters then c.counters[org] else 0
  }

  ghost predicate Drawn(c: Config, i: nat)
    requires i < |c.units|
  {
    c.units[i].request.Create? && c.units[i].number != ""
  }

  /** A drawn number encodes a value the organization's counter has passed. */
  ghost predicate NumberInRange(c: Config, i: nat)
    requires i < |c.units|
  {
    Drawn(c, i) ==> 1 <= OrderNumbers.Parse(c.units[i].number) <= Counter(c, c.units[i].request.key.0)
  }

  ghost predicate NumbersApart(c: Config, i: nat, j: nat)
    requires i < |c.units| && j < |c.units|
  {
    i != j && Drawn(c, i) && Drawn(c, j) && c.units[i].request.key.0 == c.units[j].request.key.0 ==>
      OrderNumbers.Parse(c.units[i].number) != OrderNumbers.Parse(c.units[j].number)
  }

  /** A stored order carries the number some unit drew for it. */
  ghost predicate NumberHasSource(c: Config, k: Key) {
    k in c.data.orders ==>
      exists i :: 0 <= i < |c.units| && Drawn(c, i) && c.units[i].request.key == k && c.units[i].number == c.data.orders[k].number
  }

  ghost predicate Numbering(c: Config) {
    && (forall i :: 0 <= i < |c.units| ==> NumberInRange(c, i))
    && (forall i, j :: 0 <= i < |c.units| && 0 <= j < |c.units| ==> NumbersApart(c, i, j))
    && (forall k :: NumberHasSource(c, k))
  }

  /** Before its first call returns, a creation has drawn no number. */
  ghost predicate Undrawn(u: Unit) {
    u.request.Create? ==>
      && (u.call == AllocateNumber ==> u.number == "")
      && (u.call == CommitWrites ==> u.number != "")
  }

  // The invariant ----------------------------------------------------------------------

  ghost predicate Invariant(c: Config) {
    && Good(c.data)
    && Serial(c.history) == Success(c.data)
    && (forall i :: 0 <= i < |c.units| ==> Knows(c.data, c.units[i]))
    && (forall i :: 0 <= i < |c.units| ==> Undrawn(c.units[i]))
    && Numbering(c)
  }

  lemma FreshKnows(d: Data, r: Request)
    ensures Knows(d, Fresh(r))
  {
  }

  lemma SpawnKeeps(c: Config, r: Request)
    requires Invariant(c)
    ensures Invariant(Next(c, Spawn(r)))
  {
    hide Good;
    hide Knows;
    hide Serial;
    var c' := Next(c, Spawn(r));
    forall i | 0 <= i < |c'.units| ensures Knows(c'.data, c'.units[i]) {
      if i == |c.units| { FreshKnows(c.data, r); } else { assert c'.units[i] == c.units[i]; }
    }
    forall k ensures NumberHasSource(c', k) {
      assert NumberHasSource(c, k);
      if k in c.data.orders {
        var i :| 0 <= i < |c.units| && Drawn(c, i) && c.units[i].request.key == k && c.units[i].number == c.data.orders[k].number;
        assert c'.units[i] == c.units[i];
      }
    }
    forall i | 0 <= i < |c'.units| ensures NumberInRange(c', i) {
      if i < |c.units| { assert NumberInRange(c, i); }
    }
    forall i, j | 0 <= i < |c'.units| && 0 <= j < |c'.units| ensures NumbersApart(c', i, j) {
      if i < |c.units| && j < |c.units| { assert NumbersApart(c, i, j); }
    }
  }

  /** A step that changes one unit, keeps its request and number, and only evolves the data. */
  lemma NumberingKept(c: Config, c': Config, i: nat)
    requires Numbering(c) && i < |c.units| && |c'.units| == |c.units|
    requires c'.counters == c.counters
    requires forall j :: 0 <= j < |c.units| && j != i ==> c'.units[j] == c.units[j]
    requires c'.units[i].request == c.units[i].request && c'.units[i].number == c.units[i].number
    requires forall k :: k in c'.data.orders ==>
               || (k in c.data.orders && c'.data.orders[k].number == c.data.orders[k].number)
               || (Drawn(c, i) && c.units[i].request.key == k && c.units[i].number == c'.data.orders[k].number)
    ensures Numbering(c')
  {
    forall j | 0 <= j < |c'.units| ensures NumberInRange(c', j) { assert NumberInRange(c, j); }
    forall j, l | 0 <= j < |c'.units| && 0 <= l < |c'.units| ensures NumbersApart(c', j, l) { assert NumbersApart(c, j, l); }
    forall k ensures NumberHasSource(c', k) {
      if k in c'.data.orders {
        if k in c.data.orders && c'.data.orders[k].number == c.data.orders[k].number {
          assert NumberHasSource(c, k);
          var j :| 0 <= j < |c.units| && Drawn(c, j) && c.units[j].request.key == k && c.units[j].number == c.data.orders[k].number;
          assert Drawn(c', j);
        } else {
          assert Drawn(c', i);
        }
      }
    }
  }

  /** What drawing a number changes: the drawer's number, above every one drawn before. */
  lemma Drawing(c: Config, i: nat, now: int)
    requires i < |c.units| && c.units[i].call == AllocateNumber && Enabled(c.units[i])
    ensures var c', org := Next(c, Advance(i, now)), c.units[i].request.key.0;
            && c'.data == c.data && |c'.units| == |c.units| && (forall j :: 0 <= j < |c.units| && j != i ==> c'.units[j] == c.units[j])
            && c'.units[i].request == c.units[i].request
            && OrderNumbers.Parse(c'.units[i].number) == Counter(c', org) == Counter(c, org) + 1
            && forall o :: Counter(c', o) >= Counter(c, o)
  {
    hide Submit;
    OrderNumbers.ParseInvertsFormat(NextSequence(c.counters, c.units[i].request.key.0));
    hide OrderNumbers.Parse;
    hide OrderNumbers.Format;
  }

  lemma AllocationNumbers(c: Config, i: nat, now: int)
    requires Numbering(c) && i < |c.units| && c.units[i].call == AllocateNumber && Enabled(c.units[i])
    requires c.units[i].number == ""
    ensures Numbering(Next(c, Advance(i, now)))
  {
    hide Next;
    hide Counter;
    hide OrderNumbers.Parse;
    var c' := Next(c, Advance(i, now));
    Drawing(c, i, now);
    forall j | 0 <= j < |c'.units| ensures NumberInRange(c', j) { assert NumberInRange(c, j); }
    forall j, l | 0 <= j < |c'.units| && 0 <= l < |c'.units| ensures NumbersApart(c', j, l) {
      assert NumbersApart(c, j, l) && NumberInRange(c, j) && NumberInRange(c, l);
    }
    forall k ensures NumberHasSource(c', k) {
      assert NumberHasSource(c, k);
      if k in c'.data.orders {
        var j :| 0 <= j < |c.units| && Drawn(c, j) && c.units[j].request.key == k && c.units[j].number == c.data.orders[k].number;
        assert Drawn(c', j);
      }
    }
  }

  lemma AllocateKeeps(c: Config, i: nat, now: int)
    requires Invariant(c) && i < |c.units| && c.units[i].call == AllocateNumber && Enabled(c.units[i])
    ensures Invariant(Next(c, Advance(i, now)))
  {
    hide Good;
    hide Numbering;
    var u := c.units[i];
    assert Knows(c.data, u) && Undrawn(u);
    var sequence := NextSequence(c.counters, u.request.key.0);
    OrderNumbers.ParseInvertsFormat(sequence);
    AllocationNumbers(c, i, now);
    AllocatedKnows(c.data, u, sequence);
  }

  lemma AllocatedKnows(d: Data, u: Unit, sequence: nat)
    requires u.request.Create? && sequence >= 1 && CreateKnows(d, u) && u.call == AllocateNumber
    ensures Knows(d, Allocated(u, sequence)) && Undrawn(Allocated(u, sequence))
  {
    OrderNumbers.ParseInvertsFormat(sequence);
  }

  lemma ReadStepKeepsUndrawn(d: Data, u: Unit, now: int)
    requires Knows(d, u) && Undrawn(u) && Enabled(u) && u.call !in {AllocateNumber, CommitWrites, Done}
    ensures Undrawn(ReadStep(u, d, now))
  {
    if u.request.Create? && u.decision.Some? {
      assert u.number == "" ==> Submit(u.request.key, u.number, u.request.intent).Failure?;
    }
  }

  lemma ReadKeeps(c: Config, i: nat, now: int)
    requires Invariant(c) && i < |c.units| && Enabled(c.units[i]) && c.units[i].call !in {AllocateNumber, CommitWrites, Done}
    ensures Invariant(Next(c, Advance(i, now)))
  {
    hide Good;
    hide Knows;
    hide Undrawn;
    hide ReadStep;
    ReadStepKnows(c.data, c.units[i], now);
    ReadStepsKeepRequest(c.data, c.units[i], now);
    ReadStepKeepsUndrawn(c.data, c.units[i], now);
    NumberingKept(c, Next(c, Advance(i, now)), i);
  }

  lemma ConflictKnows(d: Data, u: Unit)
    requires Good(d) && Knows(d, u) && Undrawn(u) && u.call == CommitWrites && CommitTo(d, u.staging).Failure?
    ensures Knows(d, Conflicted(u, ConcurrencyConflict)) && Undrawn(Conflicted(u, ConcurrencyConflict))
    ensures CommitTo(d, u.staging) == Failure(ConcurrencyConflict)
  {
    if u.request.Create? {
      var key, o := u.request.key, u.decision.value.order;
      if key !in d.orders {
        MergedOne(d.orders, key, Staged(o, None));
        RoomKept(d.orders, key, o);
      }
    }
  }

  lemma ConflictKeeps(c: Config, i: nat, now: int)
    requires Invariant(c) && i < |c.units| && c.units[i].call == CommitWrites && CommitTo(c.data, c.units[i].staging).Failure?
    ensures Invariant(Next(c, Advance(i, now)))
  {
    hide Good;
    hide Knows;
    hide Undrawn;
    ConflictKnows(c.data, c.units[i]);
    NumberingKept(c, Next(c, Advance(i, now)), i);
  }

  lemma SuccessKnows(d: Data, u: Unit)
    requires Good(d) && Knows(d, u) && Undrawn(u) && u.call == CommitWrites && CommitTo(d, u.staging).Success?
    ensures Knows(CommitTo(d, u.staging).value, Succeeded(u)) && Undrawn(Succeeded(u))
  {
    CommitIsAtomic(d, u);
  }

  /** Only a creation commits an order that was not there, and under the number it drew. */
  lemma NewOrdersAreCreated(d: Data, u: Unit, k: Key)
    requires Keyed(d) && Knows(d, u) && Undrawn(u) && u.call == CommitWrites && CommitTo(d, u.staging).Success?
    requires k in CommitTo(d, u.staging).value.orders && k !in d.orders
    ensures u.request.Create? && u.number != "" && u.request.key == k
    ensures u.number == CommitTo(d, u.staging).value.orders[k].number
  {
    hide Decide;
    assert k in u.staging.orders;
  }

  lemma CommitsNumbers(d: Data, u: Unit, k: Key)
    requires Good(d) && Knows(d, u) && Undrawn(u) && u.call == CommitWrites && CommitTo(d, u.staging).Success?
    ensures var d' := CommitTo(d, u.staging).value;
            k in d'.orders ==>
              || (k in d.orders && d'.orders[k].number == d.orders[k].number)
              || (u.request.Create? && u.number != "" && u.request.key == k && u.number == d'.orders[k].number)
  {
    hide Knows;
    hide Undrawn;
    hide CommitTo;
    hide Atomically;
    CommitIsAtomic(d, u);
    TransactionsEvolve(d, TxnOf(u));
    var d' := CommitTo(d, u.staging).value;
    assert OrderOnward(d, d', k);
    if k in d'.orders && k !in d.orders { NewOrdersAreCreated(d, u, k); }
  }

  lemma CommitKeeps(c: Config, i: nat, now: int)
    requires Invariant(c) && i < |c.units| && c.units[i].call == CommitWrites && CommitTo(c.data, c.units[i].staging).Success?
    ensures Invariant(Next(c, Advance(i, now)))
  {
    hide Good;
    hide Knows;
    hide Undrawn;
    hide Evolves;
    hide Atomically;
    hide CommitTo;
    var u, c' := c.units[i], Next(c, Advance(i, now));
    CommitIsAtomic(c.data, u);
    assert c'.history[..|c.history|] == c.history;
    TransactionsKeepGood(c.data, TxnOf(u));
    TransactionsEvolve(c.data, TxnOf(u));
    SuccessKnows(c.data, u);
    forall j | 0 <= j < |c'.units| ensures Knows(c'.data, c'.units[j]) {
      if j != i { KnowledgeSurvives(c.data, c'.data, c.units[j]); }
    }
    forall k { CommitsNumbers(c.data, u, k); }
    NumberingKept(c, c', i);
  }

  lemma NextKeeps(c: Config, a: Action)
    requires Invariant(c)
    ensures Invariant(Next(c, a))
  {
    hide Invariant;
    match a {
      case Spawn(r) => SpawnKeeps(c, r);
      case Advance(i, now) =>
        if i < |c.units| && Enabled(c.units[i]) && c.units[i].call != Done {
          var u := c.units[i];
          if u.call == AllocateNumber {
            AllocateKeeps(c, i, now);
          } else if u.call == CommitWrites {
            if CommitTo(c.data, u.staging).Failure? { ConflictKeeps(c, i, now); } else { CommitKeeps(c, i, now); }
          } else {
            ReadKeeps(c, i, now);
          }
        }
    }
  }

  lemma {:induction false} RunKeeps(schedule: seq<Action>)
    ensures Invariant(Run(schedule))
  {
    hide Invariant;
    if schedule == [] {
      StartHolds();
    } else {
      RunKeeps(schedule[..|schedule| - 1]);
      NextKeeps(Run(schedule[..|schedule| - 1]), schedule[|schedule| - 1]);
    }
  }

  lemma StartHolds()
    ensures Invariant(START)
  {
    EmptyIsGood();
  }
}
