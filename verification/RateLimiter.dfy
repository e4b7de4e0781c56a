/** The sliding-window limiter of the MAX transport. Times are real seconds of a
    clock that never runs backwards. The limiter forgets old times and idle chats;
    its guarantee is about the whole history of admissions. */
module RateLimiter {
  import opened Prelude

  const CHAT_LIMIT := 2
  const MANY_CHATS := 1000

  datatype Admission = Admission(at: real, chat: Option<string>)

  function Times(history: seq<Admission>): seq<real> {
    if history == [] then [] else Times(history[..|history| - 1]) + [history[|history| - 1].at]
  }

  function ChatTimes(history: seq<Admission>, chat: string): seq<real> {
    if history == [] then []
    else
      var last := history[|history| - 1];
      ChatTimes(history[..|history| - 1], chat) + (if last.chat == Some(chat) then [last.at] else [])
  }

  /** The times less than one second before `now`. */
  function Recent(times: seq<real>, now: real): seq<real> {
    if times == [] then []
    else
      var last := times[|times| - 1];
      Recent(times[..|times| - 1], now) + (if last > now - 1.0 then [last] else [])
  }

  ghost predicate Sorted(times: seq<real>) {
    forall i, j :: 0 <= i < j < |times| ==> times[i] <= times[j]
  }

  ghost predicate AllBy(times: seq<real>, now: real) {
    forall i :: 0 <= i < |times| ==> times[i] <= now
  }

  /** The rule itself: fewer than `rate` admissions in the last second, and fewer than two for the chat. */
  ghost predicate MayAdmit(history: seq<Admission>, rate: nat, chat: Option<string>, now: real) {
    && |Recent(Times(history), now)| < rate
    && (chat.Some? ==> |Recent(ChatTimes(history, chat.value), now)| < CHAT_LIMIT)
  }

  /** Every admission obeyed the rule when it was made. */
  ghost predicate Legal(history: seq<Admission>, rate: nat) {
    && (forall i, j :: 0 <= i < j < |history| ==> history[i].at <= history[j].at)
    && (forall n :: 0 <= n < |history| ==> MayAdmit(history[..n], rate, history[n].chat, history[n].at))
  }

  // What the rule guarantees ---------------------------------------------------------

  lemma {:induction false} TimesAt(history: seq<Admission>, i: nat)
    ensures |Times(history)| == |history|
    ensures i < |history| ==> Times(history)[i] == history[i].at
  {
    if history != [] { TimesAt(history[..|history| - 1], i); }
  }

  lemma {:induction false} RecentOfSuffix(times: seq<real>, i: nat, now: real)
    requires Sorted(times) && i <= |times| && (i < |times| ==> times[i] > now - 1.0)
    ensures |Recent(times, now)| >= |times| - i
  {
    if i < |times| { RecentOfSuffix(times[..|times| - 1], i, now); }
  }

  /** Over the whole history, any `rate` + 1 consecutive admissions span at least one second. */
  lemma WindowHolds(history: seq<Admission>, rate: nat, i: nat)
    requires Legal(history, rate) && i + rate < |history|
    ensures history[i + rate].at - history[i].at >= 1.0
  {
    var before, now := history[..i + rate], history[i + rate].at;
    assert MayAdmit(before, rate, history[i + rate].chat, now);
    var times := Times(before);
    TimesAt(before, i);
    forall a, b | 0 <= a < b < |times| ensures times[a] <= times[b] { TimesAt(before, a); TimesAt(before, b); }
    if rate > 0 && times[i] > now - 1.0 { RecentOfSuffix(times, i, now); }
  }

  lemma {:induction false} TwoInChat(history: seq<Admission>, chat: string, i: nat, j: nat, now: real)
    requires i < j < |history| && history[i].chat == Some(chat) == history[j].chat
    requires history[i].at > now - 1.0 && history[j].at > now - 1.0
    ensures |Recent(ChatTimes(history, chat), now)| >= 2
  {
    var n := |history| - 1;
    var earlier := ChatTimes(history[..n], chat);
    if j < n {
      TwoInChat(history[..n], chat, i, j, now);
    } else {
      OneInChat(history[..n], chat, i, now);
    }
    if history[n].chat == Some(chat) { RecentSnoc(earlier, history[n].at, now); } else { assert earlier + [] == earlier; }
  }

  lemma {:induction false} OneInChat(history: seq<Admission>, chat: string, i: nat, now: real)
    requires i < |history| && history[i].chat == Some(chat) && history[i].at > now - 1.0
    ensures |Recent(ChatTimes(history, chat), now)| >= 1
  {
    var n := |history| - 1;
    var earlier := ChatTimes(history[..n], chat);
    if i < n { OneInChat(history[..n], chat, i, now); }
    if history[n].chat == Some(chat) { RecentSnoc(earlier, history[n].at, now); } else { assert earlier + [] == earlier; }
  }

  /** Over the whole history, any three admissions of one chat span at least one second. */
  lemma ChatWindowHolds(history: seq<Admission>, rate: nat, chat: string, i: nat, j: nat, k: nat)
    requires Legal(history, rate) && i < j < k < |history|
    requires history[i].chat == history[j].chat == history[k].chat == Some(chat)
    ensures history[k].at - history[i].at >= 1.0
  {
    var before, now := history[..k], history[k].at;
    assert MayAdmit(before, rate, history[k].chat, now);
    if history[i].at > now - 1.0 { TwoInChat(before, chat, i, j, now); }
  }

  lemma {:induction false} RecentReaches(times: seq<real>, now: real, limit: nat)
    requires Sorted(times) && limit >= 1
    ensures |Recent(times, now)| >= limit <==> |times| >= limit && times[|times| - limit] > now - 1.0
    decreases |times|
  {
    if times != [] {
      var n := |times| - 1;
      if limit > 1 {
        RecentReaches(times[..n], now, limit - 1);
      } else if times[n] <= now - 1.0 {
        RecentOfOld(times, now);
      }
      if limit > 1 && times[n] <= now - 1.0 { RecentOfOld(times, now); }
    }
  }

  lemma {:induction false} TimesSorted(history: seq<Admission>)
    requires forall i, j :: 0 <= i < j < |history| ==> history[i].at <= history[j].at
    ensures Sorted(Times(history))
  {
    forall i, j | 0 <= i < j < |Times(history)| ensures Times(history)[i] <= Times(history)[j] {
      TimesAt(history, i);
      TimesAt(history, j);
    }
  }

  lemma {:induction false} RecentInChat(history: seq<Admission>, chat: string, now: real)
    ensures |Recent(ChatTimes(history, chat), now)| >= 1 ==>
              exists i :: 0 <= i < |history| && history[i].chat == Some(chat) && history[i].at > now - 1.0
    ensures |Recent(ChatTimes(history, chat), now)| >= 2 ==>
              exists i, j :: 0 <= i < j < |history| && history[i].chat == Some(chat) == history[j].chat
                             && history[i].at > now - 1.0 && history[j].at > now - 1.0
  {
    if history != [] {
      var n := |history| - 1;
      var earlier := ChatTimes(history[..n], chat);
      RecentInChat(history[..n], chat, now);
      if history[n].chat == Some(chat) { RecentSnoc(earlier, history[n].at, now); } else { assert earlier + [] == earlier; }
    }
  }

  /** Nothing is refused without need: the rule turns an admission away exactly when `rate` others,
      or two of the same chat, lie in the last second. */
  lemma RuleIsTheWindow(history: seq<Admission>, rate: nat, chat: Option<string>, now: real)
    requires rate >= 1 && forall i, j :: 0 <= i < j < |history| ==> history[i].at <= history[j].at
    ensures !MayAdmit(history, rate, chat, now) <==>
            || (|history| >= rate && history[|history| - rate].at > now - 1.0)
            || exists i, j :: 0 <= i < j < |history| && chat.Some? && history[i].chat == chat == history[j].chat
                              && history[i].at > now - 1.0 && history[j].at > now - 1.0
  {
    TimesSorted(history);
    TimesAt(history, |history|);
    RecentReaches(Times(history), now, rate);
    if |history| >= rate { TimesAt(history, |history| - rate); }
    if chat.Some? {
      RecentInChat(history, chat.value, now);
      if i, j :| 0 <= i < j < |history| && history[i].chat == chat == history[j].chat
                 && history[i].at > now - 1.0 && history[j].at > now - 1.0 {
        TwoInChat(history, chat.value, i, j, now);
      }
    }
  }

  // Forgetting is harmless -----------------------------------------------------------

  lemma RecentSnoc(times: seq<real>, t: real, now: real)
    ensures Recent(times + [t], now) == Recent(times, now) + (if t > now - 1.0 then [t] else [])
  {
    assert (times + [t])[..|times|] == times;
  }

  /** What is recent later is recent among what was recent before. */
  lemma {:induction false} RecentAgain(times: seq<real>, early: real, now: real)
    requires early <= now
    ensures Recent(Recent(times, early), now) == Recent(times, now)
  {
    if times != [] {
      var n := |times| - 1;
      RecentAgain(times[..n], early, now);
      if times[n] > early - 1.0 { RecentSnoc(Recent(times[..n], early), times[n], now); }
      else { assert Recent(times[..n], early) + [] == Recent(times[..n], early); }
    }
  }

  lemma {:induction false} RecentOfOld(times: seq<real>, now: real)
    requires AllBy(times, now - 1.0)
    ensures Recent(times, now) == []
  {
    if times != [] { RecentOfOld(times[..|times| - 1], now); }
  }

  lemma {:induction false} RecentOfNew(times: seq<real>, now: real)
    requires forall i :: 0 <= i < |times| ==> times[i] > now - 1.0
    ensures Recent(times, now) == times
  {
    if times != [] { RecentOfNew(times[..|times| - 1], now); }
  }

  lemma {:induction false} RecentDropsOldPrefix(times: seq<real>, n: nat, now: real)
    requires n <= |times| && AllBy(times[..n], now - 1.0)
    ensures Recent(times, now) == Recent(times[n..], now)
  {
    if n == |times| {
      assert times[..n] == times;
      RecentOfOld(times, now);
    } else {
      var m := |times| - 1;
      assert times[..m][..n] == times[..n] && times[..m][n..] == times[n..m] && times[n..][..m - n] == times[n..m];
      RecentDropsOldPrefix(times[..m], n, now);
    }
  }

  /** A remembered queue answers for the full list of times from `clock` on. */
  ghost predicate Remembers(queue: seq<real>, times: seq<real>, clock: real) {
    Sorted(queue) && AllBy(queue, clock) && Recent(queue, clock) == Recent(times, clock)
  }

  lemma RemembersLater(queue: seq<real>, times: seq<real>, clock: real, now: real)
    requires Remembers(queue, times, clock) && clock <= now
    ensures Remembers(queue, times, now)
  {
    RecentAgain(queue, clock, now);
    RecentAgain(times, clock, now);
  }

  lemma RemembersNew(queue: seq<real>, times: seq<real>, now: real)
    requires Remembers(queue, times, now)
    ensures Remembers(queue + [now], times + [now], now)
  {
    RecentSnoc(queue, now, now);
    RecentSnoc(times, now, now);
  }

  lemma LegalSnoc(history: seq<Admission>, rate: nat, a: Admission)
    requires Legal(history, rate) && MayAdmit(history, rate, a.chat, a.at)
    requires forall i :: 0 <= i < |history| ==> history[i].at <= a.at
    ensures Legal(history + [a], rate)
  {
    var h := history + [a];
    forall n | 0 <= n < |h| ensures MayAdmit(h[..n], rate, h[n].chat, h[n].at) {
      if n < |history| {
        assert h[..n] == history[..n] && MayAdmit(history[..n], rate, history[n].chat, history[n].at);
      } else {
        assert h[..n] == history;
      }
    }
  }

  // The remembered state ---------------------------------------------------------------

  function Bucket(chats: map<string, seq<real>>, chat: string): seq<real> {
    if chat in chats then chats[chat] else []
  }

  ghost predicate RemembersChat(chats: map<string, seq<real>>, history: seq<Admission>, clock: real, chat: string) {
    Remembers(Bucket(chats, chat), ChatTimes(history, chat), clock) && |Bucket(chats, chat)| <= CHAT_LIMIT
  }

  /** The queues answer for the whole history as of `clock`. */
  ghost predicate Window(times: seq<real>, chats: map<string, seq<real>>, history: seq<Admission>, rate: nat, clock: real) {
    && 1 <= rate <= 30
    && Legal(history, rate)
    && (forall i :: 0 <= i < |history| ==> history[i].at <= clock)
    && Remembers(times, Times(history), clock) && |times| <= rate
    && (forall chat :: RemembersChat(chats, history, clock, chat))
  }

  lemma WindowLater(times: seq<real>, chats: map<string, seq<real>>, history: seq<Admission>, rate: nat, clock: real, now: real)
    requires Window(times, chats, history, rate, clock) && clock <= now
    ensures Window(times, chats, history, rate, now)
  {
    RemembersLater(times, Times(history), clock, now);
    forall chat ensures RemembersChat(chats, history, now, chat) {
      assert RemembersChat(chats, history, clock, chat);
      RemembersLater(Bucket(chats, chat), ChatTimes(history, chat), clock, now);
    }
  }

  lemma ChatReplaced(chats: map<string, seq<real>>, history: seq<Admission>, clock: real, chat: string, queue: seq<real>)
    requires forall k :: RemembersChat(chats, history, clock, k)
    requires Remembers(queue, ChatTimes(history, chat), clock) && |queue| <= CHAT_LIMIT
    ensures var chats' := chats[chat := queue]; forall k :: RemembersChat(chats', history, clock, k)
  {
    var chats' := chats[chat := queue];
    forall k ensures RemembersChat(chats', history, clock, k) {
      assert RemembersChat(chats, history, clock, k);
    }
  }

  lemma ChatAdmitted(chats: map<string, seq<real>>, history: seq<Admission>, now: real, chat: string, k: string)
    requires RemembersChat(chats, history, now, k) && |Bucket(chats, chat)| < CHAT_LIMIT
    ensures RemembersChat(chats[chat := Bucket(chats, chat) + [now]], history + [Admission(now, Some(chat))], now, k)
  {
    hide Remembers;
    var a := Admission(now, Some(chat));
    assert (history + [a])[..|history|] == history;
    assert ChatTimes(history + [a], k) == ChatTimes(history, k) + if k == chat then [now] else [];
    hide ChatTimes;
    if k == chat {
      RemembersNew(Bucket(chats, chat), ChatTimes(history, chat), now);
    } else {
      assert ChatTimes(history, k) + [] == ChatTimes(history, k);
    }
  }

  lemma OtherAdmitted(chats: map<string, seq<real>>, history: seq<Admission>, now: real, k: string)
    requires RemembersChat(chats, history, now, k)
    ensures RemembersChat(chats, history + [Admission(now, None)], now, k)
  {
    assert (history + [Admission(now, None)])[..|history|] == history;
    assert ChatTimes(history, k) + [] == ChatTimes(history, k);
  }

  lemma WindowAdmits(times: seq<real>, chats: map<string, seq<real>>, history: seq<Admission>, rate: nat, now: real, chat: Option<string>)
    requires Window(times, chats, history, rate, now) && MayAdmit(history, rate, chat, now)
    requires |times| < rate && (chat.Some? ==> |Bucket(chats, chat.value)| < CHAT_LIMIT)
    ensures var chats' := if chat.Some? then chats[chat.value := Bucket(chats, chat.value) + [now]] else chats;
            Window(times + [now], chats', history + [Admission(now, chat)], rate, now)
  {
    hide MayAdmit;
    hide Remembers;
    hide RemembersChat;
    hide Legal;
    var a := Admission(now, chat);
    LegalSnoc(history, rate, a);
    assert (history + [a])[..|history|] == history;
    RemembersNew(times, Times(history), now);
    match chat {
      case None => forall k { OtherAdmitted(chats, history, now, k); }
      case Some(c) =>
        var chats', history' := chats[c := Bucket(chats, c) + [now]], history + [a];
        forall k ensures RemembersChat(chats', history', now, k) { ChatAdmitted(chats, history, now, c, k); }
    }
  }

  function Busy(chats: map<string, seq<real>>, now: real): map<string, seq<real>> {
    map k | k in chats && chats[k] != [] && chats[k][|chats[k]| - 1] > now - 1.0 :: chats[k]
  }

  /** An evicted chat has nothing recent to forget. */
  lemma EvictionKeeps(chats: map<string, seq<real>>, history: seq<Admission>, now: real, k: string)
    requires RemembersChat(chats, history, now, k)
    ensures RemembersChat(Busy(chats, now), history, now, k)
  {
    if k in chats && k !in Busy(chats, now) { RecentOfOld(chats[k], now); }
  }

  lemma Pruned(values: seq<real>, n: nat, now: real, times: seq<real>)
    requires Remembers(values, times, now) && n <= |values| && AllBy(values[..n], now - 1.0)
    requires n < |values| ==> values[n] > now - 1.0
    ensures values[n..] == Recent(times, now) && Remembers(values[n..], times, now) && Sorted(values[n..])
  {
    RecentDropsOldPrefix(values, n, now);
    forall i | 0 <= i < |values[n..]| ensures values[n..][i] > now - 1.0 {
      assert values[n] <= values[n + i];
    }
    RecentOfNew(values[n..], now);
  }

  class SlidingWindow {
    const rate: nat
    var requestTimes: seq<real>
    var chatTimes: map<string, seq<real>>
    ghost var history: seq<Admission>
    ghost var clock: real

    ghost predicate Valid()
      reads this
    {
      Window(requestTimes, chatTimes, history, rate, clock)
    }

    constructor (rate: nat, now: real)
      requires 1 <= rate <= 30
      ensures Valid() && this.rate == rate && history == [] && clock == now
    {
      this.rate := rate;
      requestTimes, chatTimes, history, clock := [], map[], [], now;
    }

    /** One pass through the lock: admits and answers zero, or answers how long to sleep.
        It admits exactly when the rule allows it over the whole history, although it only
        looks at what it remembers; and if nobody else is admitted meanwhile, the answered
        delay is the first moment at which the rule allows it. */
    method TakeSlot(chat: Option<string>, now: real) returns (delay: real)
      requires Valid() && clock <= now
      modifies this
      ensures Valid() && clock == now
      ensures delay <= 0.0 <==> MayAdmit(old(history), rate, chat, now)
      ensures history == old(history) + (if delay <= 0.0 then [Admission(now, chat)] else [])
      ensures delay > 0.0 ==> forall later :: now <= later ==> (MayAdmit(history, rate, chat, later) <==> later >= now + delay)
    {
      hide Remembers;
      hide Legal;
      hide RemembersChat;
      WindowLater(requestTimes, chatTimes, history, rate, clock, now);
      clock := now;
      requestTimes := Prune(requestTimes, now, Times(history));
      var queue := [];
      if chat.Some? {
        queue := PruneChat(chat.value, now);
      }
      var globalDelay := SlotDelay(requestTimes, rate, now);
      var chatDelay := if chat.Some? then SlotDelay(queue, CHAT_LIMIT, now) else 0.0;
      delay := if globalDelay >= chatDelay then globalDelay else chatDelay;
      if delay <= 0.0 {
        WindowAdmits(requestTimes, chatTimes, history, rate, now, chat);
        requestTimes := requestTimes + [now];
        if chat.Some? { chatTimes := chatTimes[chat.value := queue + [now]]; }
        history := history + [Admission(now, chat)];
        if |chatTimes| > MANY_CHATS {
          forall k { EvictionKeeps(chatTimes, history, now, k); }
          chatTimes := Busy(chatTimes, now);
        }
      } else {
        forall later | now <= later ensures MayAdmit(history, rate, chat, later) <==> later >= now + delay {
          SlotFreesUp(requestTimes, Times(history), rate, now, later);
          if chat.Some? { SlotFreesUp(queue, ChatTimes(history, chat.value), CHAT_LIMIT, now, later); }
        }
      }
    }

    method PruneChat(chat: string, now: real) returns (queue: seq<real>)
      requires Valid() && clock == now
      modifies this`chatTimes
      ensures Valid() && Bucket(chatTimes, chat) == queue == Recent(ChatTimes(history, chat), now) && Sorted(queue) && |queue| <= CHAT_LIMIT
      ensures forall i :: 0 <= i < |queue| ==> queue[i] > now - 1.0
    {
      hide Legal;
      assert RemembersChat(chatTimes, history, now, chat);
      queue := Prune(Bucket(chatTimes, chat), now, ChatTimes(history, chat));
      ChatReplaced(chatTimes, history, now, chat, queue);
      chatTimes := chatTimes[chat := queue];
    }
  }

  /** Removes expired times from the front; what is left is exactly what is recent. */
  method Prune(values: seq<real>, now: real, ghost times: seq<real>) returns (kept: seq<real>)
    requires Remembers(values, times, now)
    ensures kept == Recent(times, now) && Remembers(kept, times, now) && Sorted(kept) && |kept| <= |values|
    ensures forall i :: 0 <= i < |kept| ==> kept[i] > now - 1.0
  {
    hide Remembers;
    kept := values;
    ghost var n := 0;
    while kept != [] && kept[0] <= now - 1.0
      invariant n <= |values| && kept == values[n..] && AllBy(values[..n], now - 1.0)
    {
      kept := kept[1..];
      n := n + 1;
    }
    Pruned(values, n, now, times);
    RecentIsRecent(times, now);
  }

  lemma {:induction false} RecentIsRecent(times: seq<real>, now: real)
    ensures forall i :: 0 <= i < |Recent(times, now)| ==> Recent(times, now)[i] > now - 1.0
  {
    if times != [] { RecentIsRecent(times[..|times| - 1], now); }
  }

  function SlotDelay(values: seq<real>, limit: nat, now: real): real
    requires limit > 0
  {
    if |values| < limit then 0.0
    else if 1.0 - (now - values[0]) > 0.0 then 1.0 - (now - values[0])
    else 0.0
  }

  /** There is room again exactly once the oldest remembered time has expired. */
  lemma SlotFreesUp(queue: seq<real>, times: seq<real>, limit: nat, now: real, later: real)
    requires limit > 0 && queue == Recent(times, now) && |queue| <= limit && now <= later
    requires Sorted(queue) && forall i :: 0 <= i < |queue| ==> queue[i] > now - 1.0
    ensures |Recent(times, later)| < limit <==> later >= now + SlotDelay(queue, limit, now)
  {
    RecentAgain(times, now, later);
    RecentShorter(queue, later);
    if |queue| == limit {
      if later >= now + SlotDelay(queue, limit, now) {
        RecentDropsOldPrefix(queue, 1, later);
        RecentShorter(queue[1..], later);
      } else {
        RecentOfNew(queue, later);
      }
    }
  }

  lemma {:induction false} RecentShorter(times: seq<real>, now: real)
    ensures |Recent(times, now)| <= |times|
  {
    if times != [] { RecentShorter(times[..|times| - 1], now); }
  }
}
