/** Durable polling: a batch of raw updates and the provider cursor are stored in one
    transaction, so that confirming an offset never loses an update. The provider
    numbers updates upwards and, asked from an offset, forgets everything below it and
    serves the lowest updates it still has. */
module Polling {
  import opened Prelude

  datatype Update = Update(id: int, payload: string)

  /** The largest update id plus one, or the offset that was asked for. */
  function NextOffset(updates: seq<Update>, offset: Option<int>): Option<int> {
    if updates == [] then offset else Some(MaxId(updates) + 1)
  }

  function MaxId(updates: seq<Update>): (m: int)
    requires updates != []
    ensures forall u :: u in updates ==> u.id <= m
    ensures exists u :: u in updates && u.id == m
  {
    var n := |updates| - 1;
    if n == 0 then updates[0].id
    else
      var rest := MaxId(updates[..n]);
      assert forall u :: u in updates <==> u in updates[..n] || u == updates[n];
      if updates[n].id > rest then updates[n].id else rest
  }

  /** Inserts the updates whose id is not stored yet; stored rows never change. */
  function Accepted(inbox: map<int, string>, updates: seq<Update>): map<int, string> {
    if updates == [] then inbox
    else
      var before, u := Accepted(inbox, updates[..|updates| - 1]), updates[|updates| - 1];
      if u.id in before then before else before[u.id := u.payload]
  }

  class InboxStore {
    var inbox: map<int, string>
    var cursor: Option<int>

    constructor ()
      ensures inbox == map[] && cursor == None
    {
      inbox, cursor := map[], None;
    }

    /** Persists the raw batch and moves the cursor, atomically; counts the new rows. */
    method AcceptPollBatch(updates: seq<Update>, next: int) returns (inserted: nat)
      modifies this
      ensures inbox == Accepted(old(inbox), updates) && cursor == Some(next)
      ensures |inbox| == |old(inbox)| + inserted
    {
      inserted := 0;
      var i := 0;
      while i < |updates|
        invariant 0 <= i <= |updates| && inbox == Accepted(old(inbox), updates[..i])
        invariant |inbox| == |old(inbox)| + inserted && cursor == old(cursor)
      {
        assert updates[..i + 1][..i] == updates[..i];
        if updates[i].id !in inbox {
          inbox := inbox[updates[i].id := updates[i].payload];
          inserted := inserted + 1;
        }
        i := i + 1;
      }
      assert updates[..i] == updates;
      cursor := Some(next);
    }

    /** One poll; `serve` is the provider's answer to the offset it is asked from. */
    method TelegramOnce(serve: Option<int> -> seq<Update>) returns (inserted: nat)
      modifies this
      ensures var next := NextOffset(serve(old(cursor)), old(cursor));
              if next.None? then inserted == 0 && inbox == old(inbox) && cursor == old(cursor)
              else inbox == Accepted(old(inbox), serve(old(cursor))) && cursor == next && |inbox| == |old(inbox)| + inserted
    {
      var offset := cursor;
      var updates := serve(offset);
      var next := NextOffset(updates, offset);
      if next.None? { return 0; }
      inserted := AcceptPollBatch(updates, next.value);
    }
  }

  // Any number of pollers ----------------------------------------------------------------

  datatype Poller = Idle | Asking(offset: Option<int>) | Holding(updates: seq<Update>, next: Option<int>)

  datatype World = World(
    generated: seq<Update>,
    confirmed: int,
    inbox: map<int, string>,
    cursor: Option<int>,
    pollers: map<nat, Poller>)

  const START := World([], 0, map[], None, map[])

  datatype Action =
    | Generate(id: int, payload: string)
    | ReadCursor(poller: nat)
    | Fetch(poller: nat, limit: nat)
    | CommitBatch(poller: nat)
    | Crash(poller: nat)

  function Fresh(w: World): int {
    if w.generated == [] then 0 else w.generated[|w.generated| - 1].id + 1
  }

  /** The updates at or above `start`, lowest first. */
  function From(generated: seq<Update>, start: int): seq<Update> {
    if generated == [] then []
    else
      var n := |generated| - 1;
      From(generated[..n], start) + (if generated[n].id >= start then [generated[n]] else [])
  }

  function Max(a: int, b: int): int {
    if a >= b then a else b
  }

  function Next(w: World, a: Action): World {
    match a
    case Generate(id, payload) => if id < Fresh(w) then w else w.(generated := w.generated + [Update(id, payload)])
    case ReadCursor(p) => w.(pollers := w.pollers[p := Asking(w.cursor)])
    case Fetch(p, limit) =>
      if p in w.pollers && w.pollers[p].Asking? then
        var offset := w.pollers[p].offset;
        var start := if offset.Some? then Max(w.confirmed, offset.value) else w.confirmed;
        var available := From(w.generated, start);
        var served := available[..if limit <= |available| then limit else |available|];
        w.(confirmed := start, pollers := w.pollers[p := Holding(served, NextOffset(served, offset))])
      else w
    case CommitBatch(p) =>
      if p in w.pollers && w.pollers[p].Holding? then
        var Holding(updates, next) := w.pollers[p];
        if next.None? then w.(pollers := w.pollers[p := Idle])
        else w.(inbox := Accepted(w.inbox, updates), cursor := next, pollers := w.pollers[p := Idle])
      else w
    case Crash(p) => w.(pollers := w.pollers - {p})
  }

  function Run(schedule: seq<Action>): World {
    if schedule == [] then START else Next(Run(schedule[..|schedule| - 1]), schedule[|schedule| - 1])
  }

  /** Everything the provider ever generated below `bound` is stored with its payload. */
  ghost predicate Covered(w: World, bound: int) {
    bound <= Fresh(w) && forall u :: u in w.generated && u.id < bound ==> u.id in w.inbox && w.inbox[u.id] == u.payload
  }

  ghost predicate Increasing(updates: seq<Update>) {
    forall i, j :: 0 <= i < j < |updates| ==> updates[i].id < updates[j].id
  }

  /** What a held batch would complete: below its next offset, every update is stored or in the batch. */
  ghost predicate Completes(w: World, updates: seq<Update>, next: int) {
    && next <= Fresh(w)
    && (forall u :: u in updates ==> u in w.generated)
    && (forall u :: u in w.generated && u.id < next ==> u in updates || (u.id in w.inbox && w.inbox[u.id] == u.payload))
  }

  ghost predicate PollerSound(w: World, p: nat) {
    p in w.pollers ==>
      match w.pollers[p]
      case Idle => true
      case Asking(offset) => offset.Some? ==> Covered(w, offset.value)
      case Holding(updates, next) => next.Some? ==> Completes(w, updates, next.value)
  }

  ghost predicate Sound(w: World) {
    && Increasing(w.generated) && (forall u :: u in w.generated ==> u.id >= 0)
    && Covered(w, w.confirmed)
    && (w.cursor.Some? ==> Covered(w, w.cursor.value))
    && (forall p :: PollerSound(w, p))
    && (forall id :: id in w.inbox ==> Update(id, w.inbox[id]) in w.generated)
  }

  lemma {:induction false} FromHolds(generated: seq<Update>, start: int, u: Update)
    ensures u in From(generated, start) <==> u in generated && u.id >= start
  {
    if generated != [] {
      var n := |generated| - 1;
      FromHolds(generated[..n], start, u);
      assert u in generated <==> u in generated[..n] || u == generated[n];
    }
  }

  lemma {:induction false} FromIncreases(generated: seq<Update>, start: int)
    requires Increasing(generated)
    ensures Increasing(From(generated, start))
  {
    if generated != [] {
      var n := |generated| - 1;
      FromIncreases(generated[..n], start);
      forall i | 0 <= i < |From(generated[..n], start)| ensures From(generated[..n], start)[i].id < generated[n].id {
        FromHolds(generated[..n], start, From(generated[..n], start)[i]);
      }
    }
  }

  lemma IdsAreUnique(generated: seq<Update>, u: Update, v: Update)
    requires Increasing(generated) && u in generated && v in generated && u.id == v.id
    ensures u == v
  {
    var i :| 0 <= i < |generated| && generated[i] == u;
    var j :| 0 <= j < |generated| && generated[j] == v;
  }

  lemma BelowFresh(w: World, u: Update)
    requires Increasing(w.generated) && u in w.generated
    ensures u.id < Fresh(w)
  {
    var i :| 0 <= i < |w.generated| && w.generated[i] == u;
  }

  lemma PrefixHoldsLower(updates: seq<Update>, n: nat, u: Update, m: Update)
    requires Increasing(updates) && n <= |updates| && u in updates && m in updates[..n] && u.id <= m.id
    ensures u in updates[..n]
  {
    var i :| 0 <= i < |updates| && updates[i] == u;
    var j :| 0 <= j < n && updates[j] == m;
    assert i <= j;
    assert updates[..n][i] == u;
  }

  /** A served batch is the lowest part of what is left: nothing below its last id is skipped. */
  lemma ServedCompletes(w: World, start: int, n: nat)
    requires Increasing(w.generated) && Covered(w, start) && 0 < n <= |From(w.generated, start)|
    ensures Completes(w, From(w.generated, start)[..n], MaxId(From(w.generated, start)[..n]) + 1)
  {
    var available := From(w.generated, start);
    var served := available[..n];
    FromIncreases(w.generated, start);
    forall u | u in served ensures u in w.generated { FromHolds(w.generated, start, u); }
    var top := MaxId(served);
    assert exists u :: u in served && u.id == top;
    var m: Update :| m in served && m.id == top;
    BelowFresh(w, m);
    forall u | u in w.generated && u.id < top + 1 && u.id >= start ensures u in served {
      FromHolds(w.generated, start, u);
      PrefixHoldsLower(available, n, u, m);
    }
  }

  lemma {:induction false} AcceptedHolds(inbox: map<int, string>, updates: seq<Update>, generated: seq<Update>)
    requires Increasing(generated)
    requires forall u :: u in updates ==> u in generated
    requires forall id :: id in inbox ==> Update(id, inbox[id]) in generated
    ensures forall id :: id in inbox ==> id in Accepted(inbox, updates) && Accepted(inbox, updates)[id] == inbox[id]
    ensures forall u :: u in updates ==> u.id in Accepted(inbox, updates) && Accepted(inbox, updates)[u.id] == u.payload
    ensures forall id :: id in Accepted(inbox, updates) ==> Update(id, Accepted(inbox, updates)[id]) in generated
  {
    if updates != [] {
      var n := |updates| - 1;
      AcceptedHolds(inbox, updates[..n], generated);
      var before, u := Accepted(inbox, updates[..n]), updates[n];
      if u.id in before { IdsAreUnique(generated, u, Update(u.id, before[u.id])); }
      assert forall v :: v in updates <==> v in updates[..n] || v == u;
    }
  }

  lemma GenerateKeeps(w: World, id: int, payload: string)
    requires Sound(w)
    ensures Sound(Next(w, Generate(id, payload)))
  {
    if id >= Fresh(w) {
      forall u | u in w.generated ensures u.id < Fresh(w) { BelowFresh(w, u); }
      var w' := Next(w, Generate(id, payload));
      forall p ensures PollerSound(w', p) { assert PollerSound(w, p); }
    }
  }

  /** The provider's list is the same and every stored update is still stored. */
  ghost predicate Extends(w: World, w': World) {
    w'.generated == w.generated && forall id :: id in w.inbox ==> id in w'.inbox && w'.inbox[id] == w.inbox[id]
  }

  lemma CoveredStays(w: World, w': World, bound: int)
    requires Extends(w, w') && Covered(w, bound)
    ensures Covered(w', bound)
  {
  }

  lemma PollerStays(w: World, w': World, p: nat)
    requires Extends(w, w') && PollerSound(w, p)
    requires p in w'.pollers ==> w'.pollers[p].Idle? || (p in w.pollers && w'.pollers[p] == w.pollers[p])
    ensures PollerSound(w', p)
  {
  }

  lemma FetchCompletes(w: World, p: nat, limit: nat)
    requires Sound(w) && p in w.pollers && w.pollers[p].Asking?
    ensures var w' := Next(w, Fetch(p, limit)); PollerSound(w', p) && Covered(w', w'.confirmed)
  {
    hide From;
    hide Increasing;
    var w' := Next(w, Fetch(p, limit));
    var served := w'.pollers[p].updates;
    assert PollerSound(w, p);
    hide Completes;
    assert Covered(w, w'.confirmed);
    CoveredStays(w, w', w'.confirmed);
    hide Covered;
    if served != [] {
      ServedCompletes(w, w'.confirmed, |served|);
      CompletesAlike(w, w', served, MaxId(served) + 1);
    } else if w.pollers[p].offset.Some? {
      CompletesNothing(w', w.pollers[p].offset.value, w'.confirmed);
    }
  }

  lemma CompletesAlike(w: World, w': World, updates: seq<Update>, next: int)
    requires Completes(w, updates, next) && w'.generated == w.generated && w'.inbox == w.inbox
    ensures Completes(w', updates, next)
  {
  }

  lemma CompletesNothing(w: World, next: int, bound: int)
    requires Covered(w, bound) && next <= bound
    ensures Completes(w, [], next)
  {
  }

  lemma FetchKeeps(w: World, p: nat, limit: nat)
    requires Sound(w)
    ensures Sound(Next(w, Fetch(p, limit)))
  {
    hide Covered;
    hide Completes;
    hide From;
    hide PollerSound;
    hide Increasing;
    if p in w.pollers && w.pollers[p].Asking? {
      var w' := Next(w, Fetch(p, limit));
      FetchCompletes(w, p, limit);
      if w.cursor.Some? { CoveredStays(w, w', w.cursor.value); }
      forall q ensures PollerSound(w', q) { if q != p { PollerStays(w, w', q); } }
    }
  }

  lemma CommitCovers(w: World, p: nat)
    requires Sound(w) && p in w.pollers && w.pollers[p].Holding? && w.pollers[p].next.Some?
    ensures var w' := Next(w, CommitBatch(p));
            && Extends(w, w') && Covered(w', w'.cursor.value)
            && forall id :: id in w'.inbox ==> Update(id, w'.inbox[id]) in w'.generated
  {
    assert PollerSound(w, p);
    hide PollerSound;
    AcceptedHolds(w.inbox, w.pollers[p].updates, w.generated);
    hide Accepted;
  }

  lemma CommitKeeps(w: World, p: nat)
    requires Sound(w)
    ensures Sound(Next(w, CommitBatch(p)))
  {
    hide Covered;
    hide Accepted;
    hide PollerSound;
    hide Increasing;
    var w' := Next(w, CommitBatch(p));
    if p in w.pollers && w.pollers[p].Holding? {
      if w.pollers[p].next.Some? { CommitCovers(w, p); }
      CoveredStays(w, w', w.confirmed);
      if w'.cursor == w.cursor && w.cursor.Some? { CoveredStays(w, w', w.cursor.value); }
      forall q ensures PollerSound(w', q) { PollerStays(w, w', q); }
    }
  }

  lemma NextKeeps(w: World, a: Action)
    requires Sound(w)
    ensures Sound(Next(w, a))
  {
    match a {
      case Generate(id, payload) => GenerateKeeps(w, id, payload);
      case Fetch(p, limit) => FetchKeeps(w, p, limit);
      case CommitBatch(p) => CommitKeeps(w, p);
      case ReadCursor(p) => forall q ensures PollerSound(Next(w, a), q) { assert PollerSound(w, q); }
      case Crash(p) => forall q ensures PollerSound(Next(w, a), q) { assert PollerSound(w, q); }
    }
  }

  lemma {:induction false} RunKeeps(schedule: seq<Action>)
    ensures Sound(Run(schedule))
  {
    if schedule != [] {
      RunKeeps(schedule[..|schedule| - 1]);
      NextKeeps(Run(schedule[..|schedule| - 1]), schedule[|schedule| - 1]);
    }
  }

  /** With any number of pollers crashing at any point, and even when a slow poller moves
      the cursor backwards: every update generated below the stored cursor, and every one
      the provider has been told to forget, is in the inbox once, with its payload; and
      the inbox holds nothing else. */
  lemma PollingLosesNothing(schedule: seq<Action>, u: Update)
    requires u in Run(schedule).generated
    ensures var w := Run(schedule);
            && ((w.cursor.Some? && u.id < w.cursor.value) || u.id < w.confirmed ==> u.id in w.inbox)
            && (u.id in w.inbox ==> w.inbox[u.id] == u.payload)
            && (forall id :: id in w.inbox ==> Update(id, w.inbox[id]) in w.generated)
  {
    RunKeeps(schedule);
    var w := Run(schedule);
    if u.id in w.inbox { IdsAreUnique(w.generated, u, Update(u.id, w.inbox[u.id])); }
  }

  // Everything arrives -------------------------------------------------------------------------

  /** Where the next poll starts, and what it would still have to fetch. */
  function Frontier(w: World): int {
    if w.cursor.Some? then Max(w.confirmed, w.cursor.value) else w.confirmed
  }

  function Outstanding(w: World): seq<Update> {
    From(w.generated, Frontier(w))
  }

  /** One poller's round: it reads the cursor, asks from there, and commits the answer. */
  function Poll(w: World, p: nat, limit: nat): World {
    Next(Next(Next(w, ReadCursor(p)), Fetch(p, limit)), CommitBatch(p))
  }

  lemma {:induction false} FromNone(generated: seq<Update>, start: int)
    requires forall u :: u in generated ==> u.id < start
    ensures From(generated, start) == []
  {
    if generated != [] { FromNone(generated[..|generated| - 1], start); }
  }

  /** What lies above the first k updates that are left is the rest of them. */
  lemma {:induction false} FromRest(generated: seq<Update>, start: int, k: nat)
    requires Increasing(generated) && 0 < k <= |From(generated, start)|
    ensures From(generated, From(generated, start)[k - 1].id + 1) == From(generated, start)[k..]
  {
    var n := |generated| - 1;
    var before, all := From(generated[..n], start), From(generated, start);
    forall u | u in generated[..n] ensures u.id < generated[n].id {}
    if k <= |before| {
      FromRest(generated[..n], start, k);
      FromHolds(generated[..n], start, before[k - 1]);
      assert all == before + [generated[n]];
      assert all[k..] == before[k..] + [generated[n]];
    } else {
      FromNone(generated[..n], generated[n].id + 1);
      assert all[k - 1] == generated[n] && all[k..] == [];
    }
  }

  lemma HighestIsLast(updates: seq<Update>)
    requires Increasing(updates) && updates != []
    ensures MaxId(updates) == updates[|updates| - 1].id
  {
    var top := MaxId(updates);
    assert exists u :: u in updates && u.id == top;
    var m: Update :| m in updates && m.id == top;
    var i :| 0 <= i < |updates| && updates[i] == m;
  }

  lemma PollDoes(w: World, p: nat, limit: nat)
    ensures var w', k := Poll(w, p, limit), if limit <= |Outstanding(w)| then limit else |Outstanding(w)|;
            w'.generated == w.generated && w'.confirmed == Frontier(w) && w'.cursor == NextOffset(Outstanding(w)[..k], w.cursor)
  {
    hide From;
    hide NextOffset;
    hide Accepted;
    var left, k := Outstanding(w), if limit <= |Outstanding(w)| then limit else |Outstanding(w)|;
    var w1 := Next(w, ReadCursor(p));
    var w2 := Next(w1, Fetch(p, limit));
    assert w1.pollers[p] == Asking(w.cursor);
    assert w2.pollers[p] == Holding(left[..k], NextOffset(left[..k], w.cursor)) && w2.confirmed == Frontier(w);
    NoOffset(left[..k], w.cursor);
  }

  lemma NoOffset(updates: seq<Update>, offset: Option<int>)
    ensures NextOffset(updates, offset).None? ==> offset.None?
  {
  }

  lemma PollKeeps(w: World, p: nat, limit: nat)
    requires Sound(w)
    ensures Sound(Poll(w, p, limit))
  {
    hide Next;
    hide Sound;
    NextKeeps(w, ReadCursor(p));
    NextKeeps(Next(w, ReadCursor(p)), Fetch(p, limit));
    NextKeeps(Next(Next(w, ReadCursor(p)), Fetch(p, limit)), CommitBatch(p));
  }

  /** A round of a single poller takes the lowest outstanding updates, as many as it asked for. */
  lemma PollAdvances(w: World, p: nat, limit: nat)
    requires Sound(w) && limit >= 1
    ensures var w', k := Poll(w, p, limit), if limit <= |Outstanding(w)| then limit else |Outstanding(w)|;
            w'.generated == w.generated && Outstanding(w') == Outstanding(w)[k..]
  {
    hide Covered;
    hide PollerSound;
    hide Poll;
    hide From;
    hide MaxId;
    PollDoes(w, p, limit);
    var left, k := Outstanding(w), if limit <= |Outstanding(w)| then limit else |Outstanding(w)|;
    if k > 0 {
      FromIncreases(w.generated, Frontier(w));
      HighestIsLast(left[..k]);
      FromRest(w.generated, Frontier(w), k);
      FromHolds(w.generated, Frontier(w), left[k - 1]);
      assert left[..k][k - 1] == left[k - 1] && left[k - 1] in left;
      assert Frontier(Poll(w, p, limit)) == left[k - 1].id + 1;
    }
  }

  function Polls(p: nat, limit: nat, n: nat): seq<Action> {
    if n == 0 then [] else Polls(p, limit, n - 1) + [ReadCursor(p), Fetch(p, limit), CommitBatch(p)]
  }

  lemma RunSnoc(schedule: seq<Action>, a: Action)
    ensures Run(schedule + [a]) == Next(Run(schedule), a)
  {
    assert (schedule + [a])[..|schedule|] == schedule;
  }

  lemma RunPolls(schedule: seq<Action>, p: nat, limit: nat, n: nat)
    requires n >= 1
    ensures Run(schedule + Polls(p, limit, n)) == Poll(Run(schedule + Polls(p, limit, n - 1)), p, limit)
  {
    hide Next;
    hide Run;
    var before := schedule + Polls(p, limit, n - 1);
    var a, b, c := ReadCursor(p), Fetch(p, limit), CommitBatch(p);
    assert schedule + Polls(p, limit, n) == before + [a] + [b] + [c];
    RunSnoc(before, a);
    RunSnoc(before + [a], b);
    RunSnoc(before + [a] + [b], c);
  }

  lemma {:induction false} PollsCatchUp(schedule: seq<Action>, p: nat, limit: nat, n: nat)
    requires limit >= 1
    ensures var w, w' := Run(schedule), Run(schedule + Polls(p, limit, n));
            w'.generated == w.generated && |Outstanding(w')| <= if n <= |Outstanding(w)| then |Outstanding(w)| - n else 0
  {
    hide Run;
    hide Poll;
    hide Outstanding;
    hide Sound;
    if n == 0 {
      assert schedule + Polls(p, limit, 0) == schedule;
    } else {
      PollsCatchUp(schedule, p, limit, n - 1);
      RunPolls(schedule, p, limit, n);
      RunKeeps(schedule + Polls(p, limit, n - 1));
      PollAdvances(Run(schedule + Polls(p, limit, n - 1)), p, limit);
    }
  }

  /** From every reachable state, whatever other pollers left behind, one poller that goes on alone
      has everything the provider ever generated in the inbox after finitely many rounds. */
  lemma EverythingArrives(schedule: seq<Action>, p: nat, limit: nat)
    requires limit >= 1
    ensures var n := |Outstanding(Run(schedule))|;
            forall u :: u in Run(schedule).generated ==>
              var w := Run(schedule + Polls(p, limit, n)); u.id in w.inbox && w.inbox[u.id] == u.payload
  {
    var n := |Outstanding(Run(schedule))|;
    PollsCatchUp(schedule, p, limit, n);
    var all := schedule + Polls(p, limit, n);
    var w := Run(all);
    forall u | u in Run(schedule).generated ensures u.id in w.inbox && w.inbox[u.id] == u.payload {
      FromHolds(w.generated, Frontier(w), u);
      assert Outstanding(w) == [];
      assert u !in Outstanding(w);
      PollingLosesNothing(all, u);
    }
  }
}
