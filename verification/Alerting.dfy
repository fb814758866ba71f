/**
 The rate limit of the alert channel: at most so many alerts of a category
 in five minutes, decided one message at a time from a list of recent send times.
 */
module Alerting {
  import opened Common

  datatype Category = Emergency | Risk | System | Daily

  /** A message and the clock when it is taken off the queue, in nanoseconds. */
  datatype Message = Message(category: Category, at: int)

  const WINDOW: int := 300 * NANOS_PER_SEC

  /** Whole seconds since `t`; a clock reading that lies ahead counts as zero. */
  function SecsSince(now: int, t: int): nat {
    if now < t then 0 else NumSeconds(now - t)
  }

  /** What was done with the messages so far. */
  datatype Event = Event(category: Category, at: int, sent: bool)

  /** Send attempts of a category after time `x`. */
  function SentAfter(log: seq<Event>, c: Category, x: int): nat {
    if log == [] then 0
    else
      var last := log[|log| - 1];
      SentAfter(log[..|log| - 1], c, x) + if last.sent && last.category == c && last.at > x then 1 else 0
  }

  /** Send attempts of a category in the half-open window that starts at `from`. */
  function SentWithin(log: seq<Event>, c: Category, from: int): nat {
    if log == [] then 0
    else
      var last := log[|log| - 1];
      SentWithin(log[..|log| - 1], c, from) + if last.sent && last.category == c && from <= last.at < from + WINDOW then 1 else 0
  }

  ghost predicate Forward(log: seq<Event>) {
    forall i, j :: 0 <= i < j < |log| ==> log[i].at <= log[j].at
  }

  /** The rule for one message: it is sent exactly when fewer than the maximum of its category went out in the five minutes before. */
  ghost predicate RuleAt(log: seq<Event>, max: nat, k: nat)
    requires k < |log|
  {
    log[k].sent <==> SentAfter(log[..k], log[k].category, log[k].at - WINDOW) < max
  }

  ghost predicate Limited(log: seq<Event>, max: nat) {
    forall k :: 0 <= k < |log| ==> RuleAt(log, max, k)
  }

  lemma RuleOfPrefix(log: seq<Event>, max: nat, n: nat, k: nat)
    requires k < n <= |log|
    ensures RuleAt(log[..n], max, k) <==> RuleAt(log, max, k)
  {
    assert log[..n][..k] == log[..k];
  }

  lemma PrefixLimited(log: seq<Event>, max: nat, n: nat)
    requires Limited(log, max) && n <= |log|
    ensures Limited(log[..n], max)
  {
    forall k | 0 <= k < n ensures RuleAt(log[..n], max, k) {
      RuleOfPrefix(log, max, n, k);
    }
  }

  // ----- the window bound -----

  lemma {:induction false} WindowIsRecent(log: seq<Event>, c: Category, from: int, x: int)
    requires x < from
    ensures SentWithin(log, c, from) <= SentAfter(log, c, x)
  {
    if log != [] {
      WindowIsRecent(log[..|log| - 1], c, from, x);
    }
  }

  /**
   No five-minute window, wherever it starts, holds more than the maximum of a category: the last send in it
   saw all the others as recent.
   */
  lemma {:induction false} WindowBound(log: seq<Event>, max: nat, c: Category, from: int)
    requires Limited(log, max)
    ensures SentWithin(log, c, from) <= max
  {
    if log != [] {
      var init, last := log[..|log| - 1], log[|log| - 1];
      PrefixLimited(log, max, |log| - 1);
      WindowBound(init, max, c, from);
      assert RuleAt(log, max, |log| - 1);
      if last.sent && last.category == c && from <= last.at < from + WINDOW {
        WindowIsRecent(init, c, from, last.at - WINDOW);
      }
    }
  }

  /** Nothing is dropped for lack of trying: a dropped message has exactly the maximum of sends right before it. */
  lemma DroppedOnlyWhenFull(log: seq<Event>, max: nat, k: nat)
    requires Limited(log, max) && Forward(log) && k < |log| && !log[k].sent
    ensures SentAfter(log[..k], log[k].category, log[k].at - WINDOW) == max
  {
    PrefixLimited(log, max, k);
    assert RuleAt(log, max, k);
    RecentBound(log[..k], max, log[k].category, log[k].at);
  }

  /** When time runs forward, the five minutes up to any later moment hold at most the maximum. */
  lemma {:induction false} RecentBound(log: seq<Event>, max: nat, c: Category, now: int)
    requires Limited(log, max) && forall i :: 0 <= i < |log| ==> log[i].at <= now
    ensures SentAfter(log, c, now - WINDOW) <= max
  {
    WindowBound(log, max, c, now - WINDOW + 1);
    RecentIsWindow(log, c, now);
  }

  lemma {:induction false} RecentIsWindow(log: seq<Event>, c: Category, now: int)
    requires forall i :: 0 <= i < |log| ==> log[i].at <= now
    ensures SentAfter(log, c, now - WINDOW) == SentWithin(log, c, now - WINDOW + 1)
  {
    if log != [] {
      RecentIsWindow(log[..|log| - 1], c, now);
    }
  }

  // ----- the lists of send times -----

  function Above(stamps: seq<int>, x: int): nat {
    if stamps == [] then 0 else Above(stamps[..|stamps| - 1], x) + if stamps[|stamps| - 1] > x then 1 else 0
  }

  /** Keep the stamps that are less than five minutes old. */
  function Retained(stamps: seq<int>, now: int): seq<int> {
    if stamps == [] then []
    else
      var last := stamps[|stamps| - 1];
      Retained(stamps[..|stamps| - 1], now) + if SecsSince(now, last) < 300 then [last] else []
  }

  lemma {:induction false} RetainedAreRecent(stamps: seq<int>, now: int, x: int)
    requires now - WINDOW <= x
    ensures Above(Retained(stamps, now), x) == Above(stamps, x)
    ensures |Retained(stamps, now)| == Above(stamps, now - WINDOW)
  {
    if stamps != [] {
      var init, last := stamps[..|stamps| - 1], stamps[|stamps| - 1];
      RetainedAreRecent(init, now, x);
      assert SecsSince(now, last) < 300 <==> last > now - WINDOW;
      var r := Retained(init, now);
      assert (r + [last])[..|r|] == r && r + [] == r;
    }
  }

  /** The lists agree with the log on everything that is recent at `now`. */
  ghost predicate Remembers(limits: map<Category, seq<int>>, log: seq<Event>, now: int) {
    forall c: Category, x: int :: now - WINDOW <= x ==> Above(StampsOf(limits, c), x) == SentAfter(log, c, x)
  }

  function StampsOf(limits: map<Category, seq<int>>, c: Category): seq<int> {
    if c in limits then limits[c] else []
  }

  lemma StepRemembers(limits: map<Category, seq<int>>, log: seq<Event>, at: int, m: Message, max: nat)
    requires Remembers(limits, log, at) && at <= m.at
    ensures var kept := Retained(StampsOf(limits, m.category), m.at);
      var sent := |kept| < max;
      && (sent <==> SentAfter(log, m.category, m.at - WINDOW) < max)
      && Remembers(limits[m.category := if sent then kept + [m.at] else kept], log + [Event(m.category, m.at, sent)], m.at)
  {
    var stamps := StampsOf(limits, m.category);
    var kept := Retained(stamps, m.at);
    var sent := |kept| < max;
    var e := Event(m.category, m.at, sent);
    var limits' := limits[m.category := if sent then kept + [m.at] else kept];
    RetainedAreRecent(stamps, m.at, m.at - WINDOW);
    forall c: Category, x: int | m.at - WINDOW <= x ensures Above(StampsOf(limits', c), x) == SentAfter(log + [e], c, x) {
      assert Above(StampsOf(limits, c), x) == SentAfter(log, c, x);
      OneMoreEvent(log, e, c, x);
      if c == m.category {
        RetainedAreRecent(stamps, m.at, x);
        OneMoreStamp(kept, m.at, x);
      }
    }
  }

  lemma OneMoreStamp(stamps: seq<int>, at: int, x: int)
    ensures Above(stamps + [at], x) == Above(stamps, x) + if at > x then 1 else 0
  {
    assert (stamps + [at])[..|stamps|] == stamps;
  }

  lemma OneMoreEvent(log: seq<Event>, e: Event, c: Category, x: int)
    ensures SentAfter(log + [e], c, x) == SentAfter(log, c, x) + if e.sent && e.category == c && e.at > x then 1 else 0
  {
    assert (log + [e])[..|log|] == log;
  }

  /**
   The receive loop over all messages that ever arrive. What it decides is exactly the rule above, and so every
   window of every category is bounded, on any sequence of messages.
   */
  method RunBlocking(messages: seq<Message>, max: nat) returns (sent: seq<bool>, log: seq<Event>)
    requires forall i, j :: 0 <= i < j < |messages| ==> messages[i].at <= messages[j].at
    ensures |sent| == |log| == |messages|
    ensures forall i :: 0 <= i < |messages| ==> log[i] == Event(messages[i].category, messages[i].at, sent[i])
    ensures Limited(log, max)
    ensures forall c: Category, from: int :: SentWithin(log, c, from) <= max
  {
    var limits: map<Category, seq<int>> := map[];
    sent, log := [], [];
    ghost var clock := if messages == [] then 0 else messages[0].at;
    var i := 0;
    while i < |messages|
      invariant 0 <= i <= |messages| && |sent| == |log| == i
      invariant forall k :: 0 <= k < i ==> log[k] == Event(messages[k].category, messages[k].at, sent[k])
      invariant Limited(log, max)
      invariant Remembers(limits, log, clock)
      invariant i < |messages| ==> clock <= messages[i].at
    {
      var m := messages[i];
      StepRemembers(limits, log, clock, m, max);
      clock := m.at;
      var timestamps := Retained(StampsOf(limits, m.category), m.at);
      var send := |timestamps| < max;
      if send {
        timestamps := timestamps + [m.at];
      }
      limits := limits[m.category := timestamps];
      LimitedGrows(log, max, Event(m.category, m.at, send));
      sent, log := sent + [send], log + [Event(m.category, m.at, send)];
      i := i + 1;
    }
    forall c: Category, from: int ensures SentWithin(log, c, from) <= max {
      WindowBound(log, max, c, from);
    }
  }

  lemma LimitedGrows(log: seq<Event>, max: nat, e: Event)
    requires Limited(log, max)
    requires e.sent <==> SentAfter(log, e.category, e.at - WINDOW) < max
    ensures Limited(log + [e], max)
  {
    var longer := log + [e];
    assert longer[..|log|] == log;
    forall k | 0 <= k < |longer| ensures RuleAt(longer, max, k) {
      if k < |log| {
        RuleOfPrefix(longer, max, |log|, k);
      }
    }
  }
}
