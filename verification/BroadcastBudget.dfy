/** Broadcast messages and their fixed window limiter (src/broadcast/broadcast.ts). */
module BroadcastBudget {
  import opened Basics

  const MAX_BROADCAST_CONTENT_BYTES: nat := 4096
  const WINDOW_MS: nat := 60 * 1000
  const MAX_PER_WINDOW: nat := 20

  datatype Window = Window(startedAt: int, count: nat)

  /** Per origin; an Ed25519 identity is named by a number. */
  type Windows = map<nat, Window>

  // ----- The limiter as functions on values -----

  predicate Expired(w: Window, now: int) {
    now - w.startedAt >= WINDOW_MS
  }

  /** consumeBudget */
  function Consume(windows: Windows, key: nat, now: int): (Windows, bool) {
    if key !in windows || Expired(windows[key], now) then (windows[key := Window(now, 1)], true)
    else if windows[key].count >= MAX_PER_WINDOW then (windows, false)
    else (windows[key := windows[key].(count := windows[key].count + 1)], true)
  }

  /** purgeRateWindows, for one of the two maps */
  function Purge(windows: Windows, now: int): Windows {
    map k | k in windows && !Expired(windows[k], now) :: windows[k]
  }

  datatype Event = Ask(key: nat, now: int) | Sweep(now: int)

  function Step(windows: Windows, e: Event): Windows {
    match e
    case Ask(key, now) => Consume(windows, key, now).0
    case Sweep(now) => Purge(windows, now)
  }

  function State(events: seq<Event>): Windows {
    if events == [] then map[] else Step(State(events[..|events| - 1]), events[|events| - 1])
  }

  /** An accepted request: its origin and time. */
  datatype Grant = Grant(key: nat, now: int)

  /** The answers, in order, with the requests they answer. */
  function Answers(events: seq<Event>): seq<(Grant, bool)> {
    if events == [] then []
    else
      var before, e := events[..|events| - 1], events[|events| - 1];
      Answers(before) + if e.Ask? then [(Grant(e.key, e.now), Consume(State(before), e.key, e.now).1)] else []
  }

  predicate ClockGrows(events: seq<Event>) {
    forall i, j :: 0 <= i <= j < |events| ==> events[i].now <= events[j].now
  }

  // ----- Purging never changes an answer -----

  function Requests(events: seq<Event>): seq<Event> {
    if events == [] then []
    else
      var e := events[|events| - 1];
      Requests(events[..|events| - 1]) + if e.Ask? then [e] else []
  }

  /** The window that still counts at this time, if any. */
  function Effective(windows: Windows, key: nat, now: int): Option<Window> {
    if key in windows && !Expired(windows[key], now) then Some(windows[key]) else None
  }

  predicate Alike(a: Windows, b: Windows, key: nat, now: int) {
    Effective(a, key, now) == Effective(b, key, now)
  }

  lemma AlikeLater(a: Windows, b: Windows, key: nat, now: int, later: int)
    requires Alike(a, b, key, now) && now <= later
    ensures Alike(a, b, key, later)
  {
  }

  /** Purging now or never is alike from now on. */
  lemma PurgeAlike(a: Windows, b: Windows, key: nat, now: int)
    requires Alike(a, b, key, now)
    ensures Alike(Purge(a, now), b, key, now)
  {
  }

  /** A request answered from alike windows gets one answer and leaves alike windows. */
  lemma ConsumeAlike(a: Windows, b: Windows, asked: nat, key: nat, now: int)
    requires Alike(a, b, asked, now) && Alike(a, b, key, now)
    ensures Consume(a, asked, now).1 == Consume(b, asked, now).1
    ensures Alike(Consume(a, asked, now).0, Consume(b, asked, now).0, key, now)
  {
  }

  lemma RequestsStep(events: seq<Event>)
    requires events != []
    ensures var before, e := events[..|events| - 1], events[|events| - 1];
            && State(Requests(events)) == (if e.Ask? then Step(State(Requests(before)), e) else State(Requests(before)))
            && Answers(Requests(events)) == Answers(Requests(before)) +
                 if e.Ask? then [(Grant(e.key, e.now), Consume(State(Requests(before)), e.key, e.now).1)] else []
  {
    var before, e := events[..|events| - 1], events[|events| - 1];
    if e.Ask? {
      assert Requests(events) == Requests(before) + [e];
      assert Requests(events)[..|Requests(events)| - 1] == Requests(before);
    } else {
      assert Requests(events) == Requests(before);
    }
  }

  /** Whatever purges lie between them, the same requests find the same windows in
      effect. */
  lemma {:induction false} SweepsDoNotMatter(events: seq<Event>, key: nat, now: int)
    requires ClockGrows(events) && forall i :: 0 <= i < |events| ==> events[i].now <= now
    ensures Alike(State(events), State(Requests(events)), key, now)
    ensures Answers(events) == Answers(Requests(events))
  {
    hide Alike, Consume, Purge;
    if events == [] {
      assert Alike(map[], map[], key, now) by { AlikeSelf(map[], key, now); }
    } else {
      var before, e := events[..|events| - 1], events[|events| - 1];
      SweepsDoNotMatter(before, key, e.now);
      RequestsStep(events);
      if e.Ask? {
        SweepsDoNotMatter(before, e.key, e.now);
        ConsumeAlike(State(before), State(Requests(before)), e.key, key, e.now);
      } else {
        PurgeAlike(State(before), State(Requests(before)), key, e.now);
      }
      AlikeLater(State(events), State(Requests(events)), key, e.now, now);
    }
  }

  lemma AlikeSelf(windows: Windows, key: nat, now: int)
    ensures Alike(windows, windows, key, now)
  {
  }

  /** Two runs that ask the same at the same times get the same answers, wherever
      purges are inserted. */
  lemma PurgesNeverChangeAnAnswer(a: seq<Event>, b: seq<Event>)
    requires ClockGrows(a) && ClockGrows(b) && Requests(a) == Requests(b)
    ensures Answers(a) == Answers(b)
  {
    var end := if a == [] then 0 else a[|a| - 1].now;
    SweepsDoNotMatter(a, 0, end);
    SweepsDoNotMatter(b, 0, if b == [] then 0 else b[|b| - 1].now);
  }

  // ----- How many requests are granted -----

  /** Requests of an origin granted at or after `from` and before `to`. */
  function Granted(answers: seq<(Grant, bool)>, key: nat, from: int, to: int): nat {
    if answers == [] then 0
    else
      var a := answers[|answers| - 1];
      Granted(answers[..|answers| - 1], key, from, to) + if a.1 && a.0.key == key && from <= a.0.now < to then 1 else 0
  }

  lemma GrantedNext(before: seq<(Grant, bool)>, a: (Grant, bool), key: nat, from: int, to: int)
    ensures Granted(before + [a], key, from, to) ==
            Granted(before, key, from, to) + if a.1 && a.0.key == key && from <= a.0.now < to then 1 else 0
  {
    assert (before + [a])[..|before|] == before;
  }

  lemma NoneGranted(key: nat, from: int, to: int)
    ensures Granted([], key, from, to) == 0
  {
  }

  lemma AskedLast(events: seq<Event>, key: nat, from: int, to: int)
    requires events != [] && events[|events| - 1].Ask?
    ensures var before, e := events[..|events| - 1], events[|events| - 1];
            && State(events) == Consume(State(before), e.key, e.now).0
            && Granted(Answers(events), key, from, to) == Granted(Answers(before), key, from, to) +
                 if Consume(State(before), e.key, e.now).1 && e.key == key && from <= e.now < to then 1 else 0
  {
    hide Consume;
    var before, e := events[..|events| - 1], events[|events| - 1];
    GrantedNext(Answers(before), (Grant(e.key, e.now), Consume(State(before), e.key, e.now).1), key, from, to);
  }

  /** How the grants in [from, from + WINDOW_MS) stand to the current window. */
  ghost predicate Bounded(windows: Windows, answers: seq<(Grant, bool)>, key: nat, from: int, now: int) {
    var granted := Granted(answers, key, from, from + WINDOW_MS);
    && (now < from ==> granted == 0)
    && if key !in windows then granted == 0
    else
      var w := windows[key];
      && 1 <= w.count <= MAX_PER_WINDOW && w.startedAt <= now
      && (w.startedAt < from ==> granted <= w.count - 1)
      && (from <= w.startedAt < from + WINDOW_MS ==> granted <= MAX_PER_WINDOW - 1 + w.count)
      && granted <= 2 * MAX_PER_WINDOW - 1
  }

  lemma {:induction false} GrantsBounded(events: seq<Event>, key: nat, from: int, now: int)
    requires ClockGrows(events) && forall i :: 0 <= i < |events| ==> events[i].Ask? && events[i].now <= now
    ensures Bounded(State(events), Answers(events), key, from, now)
  {
    hide Granted, State, Answers;
    if events == [] {
      NoState();
      NoneGranted(key, from, from + WINDOW_MS);
    } else {
      var before, e := events[..|events| - 1], events[|events| - 1];
      GrantsBounded(before, key, from, e.now);
      AskedLast(events, key, from, from + WINDOW_MS);
    }
  }

  lemma {:induction false} RequestsClock(events: seq<Event>)
    requires ClockGrows(events)
    ensures ClockGrows(Requests(events)) && forall i :: 0 <= i < |Requests(events)| ==> Requests(events)[i].Ask?
    ensures events != [] ==> forall i :: 0 <= i < |Requests(events)| ==>
        Requests(events)[i].now <= events[|events| - 1].now
  {
    if events != [] {
      var before := events[..|events| - 1];
      RequestsClock(before);
    }
  }

  /** In any run with purges anywhere, no half open interval of a window's length
      contains more than 39 grants to one origin. */
  lemma AtMostInAnyInterval(events: seq<Event>, key: nat, from: int)
    requires ClockGrows(events)
    ensures Granted(Answers(events), key, from, from + WINDOW_MS) <= 2 * MAX_PER_WINDOW - 1
  {
    hide State, Answers;
    var end := if events == [] then 0 else events[|events| - 1].now;
    SweepsDoNotMatter(events, key, end);
    RequestsClock(events);
    GrantsBounded(Requests(events), key, from, end);
  }

  // ----- The bound is reached -----

  /** n requests of one origin at one instant. */
  function Burst(key: nat, now: int, n: nat): seq<Event> {
    if n == 0 then [] else Burst(key, now, n - 1) + [Ask(key, now)]
  }

  lemma {:induction false} BurstTimes(key: nat, now: int, n: nat, i: nat)
    requires i < |Burst(key, now, n)|
    ensures Burst(key, now, n)[i] == Ask(key, now)
  {
    if i < |Burst(key, now, n)| - 1 { BurstTimes(key, now, n - 1, i); }
  }

  /** The window after n more grants at one instant. */
  function WindowAfter(windows: Windows, key: nat, now: int, n: nat): Window {
    if key !in windows || Expired(windows[key], now) then Window(now, n)
    else Window(windows[key].startedAt, windows[key].count + n)
  }

  lemma GrantOne(before: seq<Event>, key: nat, now: int, from: int)
    requires from <= now < from + WINDOW_MS && WindowAfter(State(before), key, now, 1).count <= MAX_PER_WINDOW
    ensures var events := before + [Ask(key, now)];
            && Granted(Answers(events), key, from, from + WINDOW_MS) ==
                Granted(Answers(before), key, from, from + WINDOW_MS) + 1
            && key in State(events) && State(events)[key] == WindowAfter(State(before), key, now, 1)
  {
    var events := before + [Ask(key, now)];
    assert events[..|before|] == before && events[|before|] == Ask(key, now);
    assert Answers(events) == Answers(before) + [(Grant(key, now), true)];
    GrantedNext(Answers(before), (Grant(key, now), true), key, from, from + WINDOW_MS);
  }

  /** A burst within a window's budget is granted in full. */
  lemma {:induction false} BurstGranted(before: seq<Event>, key: nat, now: int, n: nat, from: int)
    requires n > 0 && from <= now < from + WINDOW_MS && WindowAfter(State(before), key, now, n).count <= MAX_PER_WINDOW
    ensures var events := before + Burst(key, now, n);
            && Granted(Answers(events), key, from, from + WINDOW_MS) ==
                Granted(Answers(before), key, from, from + WINDOW_MS) + n
            && key in State(events) && State(events)[key] == WindowAfter(State(before), key, now, n)
    decreases n
  {
    hide State, Answers, Granted;
    var shorter := before + Burst(key, now, n - 1);
    assert shorter + [Ask(key, now)] == before + Burst(key, now, n);
    if n == 1 {
      assert shorter == before;
    } else {
      BurstGranted(before, key, now, n - 1, from);
    }
    GrantOne(shorter, key, now, from);
  }

  /** One grant opens a window, the rest of its budget goes at its very end, and the
      next window's budget right after: 39 grants within one window's length. */
  lemma BoundIsReached(key: nat)
    ensures var events := [Ask(key, 0)] + Burst(key, WINDOW_MS - 1, MAX_PER_WINDOW - 1) +
        Burst(key, WINDOW_MS, MAX_PER_WINDOW);
            && ClockGrows(events)
            && Granted(Answers(events), key, WINDOW_MS - 1, WINDOW_MS - 1 + WINDOW_MS) == 2 * MAX_PER_WINDOW - 1
  {
    var first := [Ask(key, 0)];
    var second := first + Burst(key, WINDOW_MS - 1, MAX_PER_WINDOW - 1);
    var events := second + Burst(key, WINDOW_MS, MAX_PER_WINDOW);
    FirstGrant(key);
    BurstGranted(first, key, WINDOW_MS - 1, MAX_PER_WINDOW - 1, WINDOW_MS - 1);
    BurstGranted(second, key, WINDOW_MS, MAX_PER_WINDOW, WINDOW_MS - 1);
    forall i, j | 0 <= i <= j < |events| ensures events[i].now <= events[j].now {
      TimeInTwoBursts(key, i);
      TimeInTwoBursts(key, j);
    }
  }

  lemma FirstGrant(key: nat)
    ensures State([Ask(key, 0)]) == map[key := Window(0, 1)]
    ensures Granted(Answers([Ask(key, 0)]), key, WINDOW_MS - 1, WINDOW_MS - 1 + WINDOW_MS) == 0
  {
    var e := Ask(key, 0);
    assert [e][..0] == [] && State([]) == map[] && Answers([]) == [];
    assert Answers([e]) == [(Grant(key, 0), true)];
    assert [(Grant(key, 0), true)][..0] == [];
  }

  lemma {:induction false} BurstSize(key: nat, now: int, n: nat)
    ensures |Burst(key, now, n)| == n
  {
    if n > 0 { BurstSize(key, now, n - 1); }
  }

  lemma TimeInTwoBursts(key: nat, i: nat)
    requires i < 1 + |Burst(key, WINDOW_MS - 1, MAX_PER_WINDOW - 1)| + |Burst(key, WINDOW_MS, MAX_PER_WINDOW)|
    ensures var events := [Ask(key, 0)] + Burst(key, WINDOW_MS - 1, MAX_PER_WINDOW - 1) +
        Burst(key, WINDOW_MS, MAX_PER_WINDOW);
            events[i].now == if i == 0 then 0 else if i < MAX_PER_WINDOW then WINDOW_MS - 1 else WINDOW_MS
  {
    hide Burst;
    BurstSize(key, WINDOW_MS - 1, MAX_PER_WINDOW - 1);
    BurstSize(key, WINDOW_MS, MAX_PER_WINDOW);
    if 0 < i < MAX_PER_WINDOW {
      BurstTimes(key, WINDOW_MS - 1, MAX_PER_WINDOW - 1, i - 1);
    } else if i >= MAX_PER_WINDOW {
      BurstTimes(key, WINDOW_MS, MAX_PER_WINDOW, i - MAX_PER_WINDOW);
    }
  }

  // ----- Per window -----

  lemma NoState()
    ensures State([]) == map[] && Answers([]) == []
  {
  }

  lemma {:induction false} CountsWithoutSweeps(events: seq<Event>, key: nat, now: int)
    requires ClockGrows(events) && key in State(events)
    requires forall i :: 0 <= i < |events| ==> events[i].Ask? && events[i].now <= now
    ensures var w := State(events)[key];
            && w.startedAt <= now && w.count <= MAX_PER_WINDOW
            && Granted(Answers(events), key, w.startedAt, now + 1) == w.count
  {
    hide Granted, State, Answers;
    assert State([]) == map[] by { NoState(); }
    var before, e := events[..|events| - 1], events[|events| - 1];
    var w := State(events)[key];
    AskedLast(events, key, w.startedAt, now + 1);
    if key in State(before) && State(before)[key].startedAt == w.startedAt {
      CountsWithoutSweeps(before, key, now);
      CountsWithoutSweeps(before, key, e.now);
    } else {
      NoneAfterWindow(before, key, e.now, now + 1);
    }
  }

  /** Nothing is granted from a window's end on until the next one opens. */
  lemma {:induction false} NoneAfterWindow(events: seq<Event>, key: nat, from: int, to: int)
    requires ClockGrows(events) && forall i :: 0 <= i < |events| ==> events[i].Ask?
    requires key in State(events) ==> State(events)[key].startedAt + WINDOW_MS <= from
    ensures Granted(Answers(events), key, from, to) == 0
  {
    hide Granted, State, Answers;
    if events == [] {
      NoState();
      NoneGranted(key, from, to);
    } else {
      var before, e := events[..|events| - 1], events[|events| - 1];
      AskedLast(events, key, from, to);
      NoneAfterWindow(before, key, from, to);
    }
  }

  /** A window that purges have left is the one there would be without purges. */
  lemma {:induction false} LeftIsTheSame(events: seq<Event>, key: nat)
    requires ClockGrows(events) && key in State(events)
    ensures key in State(Requests(events)) && State(Requests(events))[key] == State(events)[key]
    decreases |events|
  {
    hide Answers, Alike;
    if events != [] {
      var before, e := events[..|events| - 1], events[|events| - 1];
      RequestsStep(events);
      SweepsDoNotMatter(before, key, e.now);
      if key in State(before) { LeftIsTheSame(before, key); }
      hide State, Requests;
      if e.Ask? && e.key == key { SameAnswerWindow(State(before), State(Requests(before)), key, e.now); }
    }
  }

  lemma SameAnswerWindow(a: Windows, b: Windows, key: nat, now: int)
    requires Alike(a, b, key, now) && (key in a ==> key in b && b[key] == a[key])
    ensures var x, y := Consume(a, key, now).0, Consume(b, key, now).0;
            key in x && key in y && x[key] == y[key]
  {
  }

  /** Wherever purges lie: the count of a window that is still there is exactly what
      was granted since it opened, at most 20. */
  lemma WindowCountsExactly(events: seq<Event>, key: nat, now: int)
    requires ClockGrows(events) && key in State(events)
    requires forall i :: 0 <= i < |events| ==> events[i].now <= now
    ensures var w := State(events)[key];
            && w.startedAt <= now && w.count <= MAX_PER_WINDOW
            && Granted(Answers(events), key, w.startedAt, now + 1) == w.count
  {
    hide Granted, State, Answers;
    SweepsDoNotMatter(events, key, now);
    LeftIsTheSame(events, key);
    RequestsClock(events);
    assert State([]) == map[] by { NoState(); }
    assert events != [];
    CountsWithoutSweeps(Requests(events), key, now);
  }

  // ----- Broadcast messages -----

  datatype BroadcastSignature = BroadcastSigned(key: nat, content: Bytes, timestamp: int) | NotSigned(bytes: Bytes)

  datatype BroadcastMessage = BroadcastMessage(sender: nat, content: Bytes, timestamp: int,
          signature: BroadcastSignature)

  datatype Error = PayloadTooLarge | RateLimited

  predicate Authentic(m: BroadcastMessage) {
    && |m.content| <= MAX_BROADCAST_CONTENT_BYTES && m.timestamp >= 0
    && m.signature == BroadcastSigned(m.sender, m.content, m.timestamp)
  }

  /** The rate windows of a process: one map for what it creates, one for what it
      receives. */
  class BroadcastLimiter {
    var creation: Windows
    var receive: Windows

    constructor ()
      ensures creation == map[] && receive == map[]
    {
      creation, receive := map[], map[];
    }

    static method PurgeOne(windows: Windows, now: int) returns (left: Windows)
      ensures left == Purge(windows, now)
    {
      left := windows;
      var keys := windows.Keys;
      while keys != {}
        invariant keys <= left.Keys <= windows.Keys
        invariant forall k :: k in left ==> left[k] == windows[k]
        invariant forall k :: k in windows && k !in keys ==> (k in left <==> !Expired(windows[k], now))
        decreases |keys|
      {
        var key :| key in keys;
        keys := keys - {key};
        if now - left[key].startedAt >= WINDOW_MS { left := left - {key}; }
      }
    }

    method PurgeRateWindows(now: int)
      modifies this
      ensures creation == Purge(old(creation), now) && receive == Purge(old(receive), now)
    {
      creation := PurgeOne(creation, now);
      receive := PurgeOne(receive, now);
    }

    method CreateBroadcastMessage(identity: nat, content: Bytes, now: nat) returns (r: Result<BroadcastMessage, Error>)
      modifies this
      ensures |content| > MAX_BROADCAST_CONTENT_BYTES ==>
                r == Err(PayloadTooLarge) && creation == old(creation) && receive == old(receive)
      ensures |content| <= MAX_BROADCAST_CONTENT_BYTES ==>
                && receive == Purge(old(receive), now)
                && creation == Consume(Purge(old(creation), now), identity, now).0
                && (Consume(Purge(old(creation), now), identity, now).1 <==> r.Ok?)
                && (r.Ok? ==>
                      && Authentic(r.value) && r.value.sender == identity
                      && r.value.content == content && r.value.timestamp == now / 1000)
    {
      if |content| > MAX_BROADCAST_CONTENT_BYTES { return Err(PayloadTooLarge); }
      PurgeRateWindows(now);
      var (windows, granted) := Consume(creation, identity, now);
      creation := windows;
      if !granted { return Err(RateLimited); }
      var timestamp := now / 1000;
      return Ok(BroadcastMessage(identity, content, timestamp, BroadcastSigned(identity, content, timestamp)));
    }

    /** Only authentic messages use up their origin's budget. */
    method VerifyBroadcastMessage(m: BroadcastMessage, now: nat) returns (ok: bool)
      modifies this
      ensures !Authentic(m) ==> !ok && creation == old(creation) && receive == old(receive)
      ensures Authentic(m) ==>
                && creation == Purge(old(creation), now)
                && (receive, ok) == Consume(Purge(old(receive), now), m.sender, now)
      ensures ok ==> m.signature == BroadcastSigned(m.sender, m.content, m.timestamp) && m.timestamp >= 0
    {
      if !Authentic(m) { return false; }
      PurgeRateWindows(now);
      var (windows, granted) := Consume(receive, m.sender, now);
      receive := windows;
      return granted;
    }
  }
}
