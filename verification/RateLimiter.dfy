/** The two fixed-window rate limiters: the proxy's, whose counter stops at the maximum, and the
    voice server's, whose counter keeps growing. */
module RateLimiter {
  import opened Text

  /** A counter and the instant, in nanoseconds, at which its window opened. */
  datatype Window = Window(count: nat, start: nat)

  type Windows = map<string, Window>

  /** The maximum per window and the window's length. */
  datatype Limits = Limits(max: nat, window: nat)

  datatype Rule = Saturating | Growing

  function Since(now: nat, start: nat): nat {
    if now >= start then now - start else 0
  }

  function Entry(m: Windows, ip: string): Option<Window> {
    if ip in m then Some(m[ip]) else None
  }

  /** The answer to a request and the entry it leaves behind. */
  function Serve(c: Limits, rule: Rule, entry: Option<Window>, now: nat): (bool, Window) {
    var w := if entry.Some? then entry.value else Window(0, now);
    if Since(now, w.start) > c.window then (true, Window(1, now))
    else
      match rule
      case Saturating => if w.count >= c.max then (false, w) else (true, Window(w.count + 1, w.start))
      case Growing =>
        var count := (w.count + 1) % TWO_64;
        (count <= c.max, Window(count, w.start))
  }

  /** Whether an eviction at `now` keeps the entry. */
  predicate Kept(c: Limits, rule: Rule, w: Window, now: nat) {
    match rule
    case Saturating => Since(now, w.start) <= c.window
    case Growing => Since(now, w.start) < 2 * c.window
  }

  function Retain(c: Limits, rule: Rule, m: Windows, now: nat): Windows {
    map ip | ip in m && Kept(c, rule, m[ip], now) :: m[ip]
  }

  // ---------- The limiters ----------

  class ProxyLimiter {
    var windows: Windows
    const limits: Limits

    constructor (maxRequests: nat, windowSecs: nat)
      ensures windows == map[] && limits == Limits(maxRequests, windowSecs * 1_000_000_000)
    {
      windows := map[];
      limits := Limits(maxRequests, windowSecs * 1_000_000_000);
    }

    method Check(ip: string, now: nat) returns (admitted: bool)
      modifies this
      ensures admitted == Serve(limits, Saturating, Entry(old(windows), ip), now).0
      ensures windows == old(windows)[ip := Serve(limits, Saturating, Entry(old(windows), ip), now).1]
    {
      if ip !in windows {
        windows := windows[ip := Window(0, now)];
      }
      var entry := windows[ip];
      if Since(now, entry.start) > limits.window {
        windows := windows[ip := Window(1, now)];
        return true;
      }
      if entry.count >= limits.max {
        return false;
      }
      windows := windows[ip := entry.(count := entry.count + 1)];
      return true;
    }

    method Cleanup(now: nat)
      modifies this
      ensures windows == Retain(limits, Saturating, old(windows), now)
      ensures forall ip :: ip in windows <==> ip in old(windows) && now <= old(windows)[ip].start + limits.window
      ensures forall ip | ip in windows :: windows[ip] == old(windows)[ip]
    {
      windows := map ip | ip in windows && Since(now, windows[ip].start) <= limits.window :: windows[ip];
    }
  }

  const RATE_LIMIT_MAX: nat := 60
  const RATE_LIMIT_WINDOW: nat := 60 * 1_000_000_000
  const VOICE_LIMITS := Limits(RATE_LIMIT_MAX, RATE_LIMIT_WINDOW)

  class VoiceLimiter {
    var windows: Windows

    method CheckRateLimit(ip: string, now: nat) returns (admitted: bool)
      modifies this
      ensures admitted == Serve(VOICE_LIMITS, Growing, Entry(old(windows), ip), now).0
      ensures windows == old(windows)[ip := Serve(VOICE_LIMITS, Growing, Entry(old(windows), ip), now).1]
    {
      if ip !in windows {
        windows := windows[ip := Window(0, now)];
      }
      var entry := windows[ip];
      if Since(now, entry.start) > RATE_LIMIT_WINDOW {
        windows := windows[ip := Window(1, now)];
        return true;
      }
      windows := windows[ip := entry.(count := (entry.count + 1) % TWO_64)];
      return windows[ip].count <= RATE_LIMIT_MAX;
    }

    method SweepStale(now: nat)
      modifies this
      ensures windows == Retain(VOICE_LIMITS, Growing, old(windows), now)
      ensures forall ip :: ip in windows <==> ip in old(windows) && now < old(windows)[ip].start + 120_000_000_000
      ensures forall ip | ip in windows :: windows[ip] == old(windows)[ip]
    {
      var maxAge := RATE_LIMIT_WINDOW * 2;
      windows := map ip | ip in windows && Since(now, windows[ip].start) < maxAge :: windows[ip];
    }
  }

  // ---------- Traces ----------

  datatype Event = Request(ip: string, at: nat) | Cleanup(at: nat)

  datatype Answer = Answer(ip: string, at: nat, admitted: bool)

  function Step(c: Limits, rule: Rule, m: Windows, e: Event): Windows {
    match e
    case Request(ip, at) => m[ip := Serve(c, rule, Entry(m, ip), at).1]
    case Cleanup(at) => Retain(c, rule, m, at)
  }

  /** The answers to the requests of a trace, in order. */
  function Log(c: Limits, rule: Rule, m: Windows, trace: seq<Event>): seq<Answer>
    decreases |trace|
  {
    if trace == [] then []
    else
      var rest := Log(c, rule, Step(c, rule, m, trace[0]), trace[1..]);
      match trace[0]
      case Request(ip, at) => [Answer(ip, at, Serve(c, rule, Entry(m, ip), at).0)] + rest
      case Cleanup(_) => rest
  }

  /** The clock never runs back, and starts at `now` or later. */
  predicate Ticks(trace: seq<Event>, now: nat) {
    trace == [] || (now <= trace[0].at && Ticks(trace[1..], trace[0].at))
  }

  function Requests(trace: seq<Event>): seq<Event> {
    if trace == [] then []
    else if trace[0].Request? then [trace[0]] + Requests(trace[1..]) else Requests(trace[1..])
  }

  /** Requests of `ip` admitted within the closed interval. */
  function Admitted(log: seq<Answer>, ip: string, first: nat, last: nat): nat {
    if log == [] then 0
    else
      var one := if log[0].ip == ip && log[0].admitted && first <= log[0].at <= last then 1 else 0;
      one + Admitted(log[1..], ip, first, last)
  }

  // ---------- Eviction ----------

  /** What the eviction drops has expired: for the voice server's two windows, a window must last. */
  predicate Evicts(c: Limits, rule: Rule) {
    rule == Growing ==> c.window >= 1
  }

  /** What eviction may have changed: entries already expired at `now` may be missing. */
  ghost predicate Shadows(c: Limits, evicted: Windows, kept: Windows, now: nat) {
    forall ip :: Entry(evicted, ip) == Entry(kept, ip)
                 || (ip !in evicted && ip in kept && Since(now, kept[ip].start) > c.window)
  }

  lemma ShadowsRequest(c: Limits, rule: Rule, evicted: Windows, kept: Windows, ip: string, at: nat)
    requires c.max >= 1 && Shadows(c, evicted, kept, at)
    ensures Serve(c, rule, Entry(evicted, ip), at) == Serve(c, rule, Entry(kept, ip), at)
    ensures Shadows(c, Step(c, rule, evicted, Request(ip, at)), Step(c, rule, kept, Request(ip, at)), at)
  {
    assert Entry(evicted, ip) == Entry(kept, ip)
           || (ip !in evicted && ip in kept && Since(at, kept[ip].start) > c.window);
    var m, n := Step(c, rule, evicted, Request(ip, at)), Step(c, rule, kept, Request(ip, at));
    forall x ensures Entry(m, x) == Entry(n, x) || (x !in m && x in n && Since(at, n[x].start) > c.window) {
      assert x != ip ==> Entry(m, x) == Entry(evicted, x) && Entry(n, x) == Entry(kept, x);
    }
  }

  lemma ShadowsCleanup(c: Limits, rule: Rule, evicted: Windows, kept: Windows, at: nat)
    requires Evicts(c, rule) && Shadows(c, evicted, kept, at)
    ensures Shadows(c, Retain(c, rule, evicted, at), kept, at)
  {
    var m := Retain(c, rule, evicted, at);
    forall x ensures Entry(m, x) == Entry(kept, x) || (x !in m && x in kept && Since(at, kept[x].start) > c.window) {
      assert Entry(evicted, x) == Entry(kept, x) || (x !in evicted && x in kept);
    }
  }

  lemma {:induction false} EvictionShadowed(c: Limits, rule: Rule, evicted: Windows, kept: Windows,
                                            trace: seq<Event>, now: nat)
    requires c.max >= 1 && Evicts(c, rule) && Ticks(trace, now) && Shadows(c, evicted, kept, now)
    ensures Log(c, rule, evicted, trace) == Log(c, rule, kept, Requests(trace))
    decreases |trace|
  {
    hide Serve, Retain;
    if trace == [] {
    } else {
      var e := trace[0];
      assert Shadows(c, evicted, kept, e.at);
      match e
      case Request(ip, at) =>
        ShadowsRequest(c, rule, evicted, kept, ip, at);
        EvictionShadowed(c, rule, Step(c, rule, evicted, e), Step(c, rule, kept, e), trace[1..], at);
        assert Requests(trace)[1..] == Requests(trace[1..]);
      case Cleanup(at) =>
        ShadowsCleanup(c, rule, evicted, kept, at);
        EvictionShadowed(c, rule, Step(c, rule, evicted, e), kept, trace[1..], at);
    }
  }

  ghost predicate Invisible(c: Limits, rule: Rule, trace: seq<Event>) {
    Log(c, rule, map[], trace) == Log(c, rule, map[], Requests(trace))
  }

  /** At a maximum of zero an expired window still admits the request that resets it, and eviction
      takes that one request away. */
  lemma EvictionShowsAtZero(c: Limits, rule: Rule)
    requires c.max == 0
    ensures exists trace :: Ticks(trace, 0) && !Invisible(c, rule, trace)
  {
    var later := 2 * c.window + 1;
    var r0, r1 := Request("a", 0), Request("a", later);
    var none: seq<Event> := [];
    var last, rest, trace := [r1], [Cleanup(later), r1], [r0, Cleanup(later), r1];
    assert last[1..] == none && rest[1..] == last && trace[1..] == rest && [r0, r1][1..] == last;
    assert Requests(last) == [r1] + Requests(none);
    assert Requests(rest) == Requests(last);
    assert Requests(trace) == [r0] + Requests(rest) == [r0, r1];
    var m := Step(c, rule, map[], r0);
    assert Entry(m, "a").Some? && m["a"].start == 0;
    assert Retain(c, rule, m, later) == map[];
    assert Log(c, rule, map[], last)[0] == Answer("a", later, false);
    assert Log(c, rule, m, last)[0] == Answer("a", later, true);
    assert Log(c, rule, m, rest) == Log(c, rule, map[], last);
    assert Log(c, rule, map[], trace)[1..] == Log(c, rule, m, rest);
    assert Log(c, rule, map[], [r0, r1])[1..] == Log(c, rule, m, last);
    assert !Invisible(c, rule, trace);
    assert Ticks(last, later) && Ticks(rest, 0) && trace[0] == r0;
    assert Ticks(trace[1..], r0.at);
  }

  /** Eviction is invisible, that is, wherever cleanups fall in a trace the answers are those of the
      same requests without any, exactly when the maximum is at least one. */
  lemma EvictionInvisibleExactly(c: Limits, rule: Rule)
    requires Evicts(c, rule)
    ensures (forall trace :: Ticks(trace, 0) ==> Invisible(c, rule, trace)) <==> c.max >= 1
  {
    if c.max >= 1 {
      forall trace | Ticks(trace, 0) ensures Invisible(c, rule, trace) {
        EvictionShadowed(c, rule, map[], map[], trace, 0);
      }
    } else {
      EvictionShowsAtZero(c, rule);
    }
  }

  // ---------- The two counters ----------

  ghost predicate SameCounts(c: Limits, saturating: Windows, growing: Windows, bound: nat) {
    && saturating.Keys == growing.Keys
    && forall ip | ip in growing :: SameCount(c, saturating[ip], growing[ip], bound)
  }

  predicate SameCount(c: Limits, saturating: Window, growing: Window, bound: nat) {
    saturating == Window(Least(c.max, growing.count), growing.start) && growing.count <= bound
  }

  function Least(a: nat, b: nat): nat {
    if a < b then a else b
  }

  lemma SameServe(c: Limits, saturating: Option<Window>, growing: Option<Window>, at: nat, bound: nat)
    requires c.max >= 1 && bound + 1 < TWO_64 && saturating.None? == growing.None?
    requires growing.Some? ==> SameCount(c, saturating.value, growing.value, bound)
    ensures var (admits, s) := Serve(c, Saturating, saturating, at);
            var (allows, g) := Serve(c, Growing, growing, at);
            admits == allows && SameCount(c, s, g, bound + 1)
  {
  }

  lemma SameCountsStep(c: Limits, saturating: Windows, growing: Windows, ip: string, at: nat, bound: nat)
    requires c.max >= 1 && SameCounts(c, saturating, growing, bound) && bound + 1 < TWO_64
    ensures Serve(c, Saturating, Entry(saturating, ip), at).0 == Serve(c, Growing, Entry(growing, ip), at).0
    ensures SameCounts(c, Step(c, Saturating, saturating, Request(ip, at)),
                       Step(c, Growing, growing, Request(ip, at)), bound + 1)
  {
    hide Serve;
    SameServe(c, Entry(saturating, ip), Entry(growing, ip), at, bound);
  }

  lemma {:induction false} SameAnswersFrom(c: Limits, saturating: Windows, growing: Windows, trace: seq<Event>,
                                           bound: nat)
    requires c.max >= 1 && (forall i | 0 <= i < |trace| :: trace[i].Request?)
    requires SameCounts(c, saturating, growing, bound) && bound + |trace| < TWO_64
    ensures Log(c, Saturating, saturating, trace) == Log(c, Growing, growing, trace)
    decreases |trace|
  {
    hide Serve, SameCounts;
    if trace == [] {
    } else {
      var e := trace[0];
      SameCountsStep(c, saturating, growing, e.ip, e.at, bound);
      SameAnswersFrom(c, Step(c, Saturating, saturating, e), Step(c, Growing, growing, e), trace[1..], bound + 1);
    }
  }

  lemma {:induction false} OnlyRequests(trace: seq<Event>)
    ensures |Requests(trace)| <= |trace|
    ensures forall i | 0 <= i < |Requests(trace)| :: Requests(trace)[i].Request?
  {
    if trace == [] {
    } else {
      OnlyRequests(trace[1..]);
    }
  }

  /** The counter that stops and the counter that grows answer every trace alike, each with its own
      evictions mixed in. */
  lemma CountersAgree(c: Limits, trace: seq<Event>)
    requires c.max >= 1 && c.window >= 1 && Ticks(trace, 0) && |trace| < TWO_64
    ensures Log(c, Saturating, map[], trace) == Log(c, Growing, map[], trace)
  {
    hide Log;
    EvictionInvisibleExactly(c, Saturating);
    EvictionInvisibleExactly(c, Growing);
    assert Invisible(c, Saturating, trace) && Invisible(c, Growing, trace);
    OnlyRequests(trace);
    SameAnswersFrom(c, map[], map[], Requests(trace), 0);
  }

  // ---------- The bound ----------

  /** How many more requests within [first, first + window] an entry can see admitted. */
  function Room(c: Limits, entry: Option<Window>, first: nat): nat
    requires c.max >= 1
  {
    if entry.None? || entry.value.start + c.window < first then c.max
    else
      var left := c.max - Least(c.max, entry.value.count);
      if entry.value.start < first then left + c.max else left
  }

  ghost predicate Counted(m: Windows) {
    forall ip | ip in m :: m[ip].count >= 1
  }

  lemma {:induction false} NothingAfter(c: Limits, m: Windows, trace: seq<Event>, now: nat, ip: string, first: nat,
                                        last: nat)
    requires Ticks(trace, now) && now > last
    ensures Admitted(Log(c, Saturating, m, trace), ip, first, last) == 0
    decreases |trace|
  {
    if trace == [] {
    } else {
      NothingAfter(c, Step(c, Saturating, m, trace[0]), trace[1..], trace[0].at, ip, first, last);
      OneMore(c, m, trace, ip, first, last);
    }
  }

  /** The first event's share of the count. */
  lemma OneMore(c: Limits, m: Windows, trace: seq<Event>, ip: string, first: nat, last: nat)
    requires trace != []
    ensures var e := trace[0];
            Admitted(Log(c, Saturating, m, trace), ip, first, last) ==
            (if e.Request? && e.ip == ip && Serve(c, Saturating, Entry(m, ip), e.at).0 && first <= e.at <= last
             then 1 else 0)
            + Admitted(Log(c, Saturating, Step(c, Saturating, m, e), trace[1..]), ip, first, last)
  {
    hide Serve, Step;
    var e := trace[0];
    if e.Request? {
      var rest := Log(c, Saturating, Step(c, Saturating, m, e), trace[1..]);
      assert Log(c, Saturating, m, trace)[1..] == rest;
    }
  }

  /** One request inside the interval takes one place of the room. */
  lemma RoomShrinks(c: Limits, entry: Option<Window>, at: nat, first: nat, last: nat)
    requires c.max >= 1 && first <= at <= last <= first + c.window
    requires entry.Some? ==> entry.value.count >= 1
    ensures var (admitted, w) := Serve(c, Saturating, entry, at);
            w.count >= 1 && Room(c, Some(w), first) + (if admitted then 1 else 0) <= Room(c, entry, first)
  {
  }

  lemma NothingLogged(c: Limits, m: Windows, ip: string, first: nat, last: nat)
    ensures Admitted(Log(c, Saturating, m, []), ip, first, last) == 0
  {
  }

  lemma {:induction false} WithinRoom(c: Limits, m: Windows, trace: seq<Event>, now: nat, ip: string, first: nat,
                                      last: nat)
    requires c.max >= 1 && Counted(m) && Ticks(trace, now) && first <= now && last <= first + c.window
    requires forall i | 0 <= i < |trace| :: trace[i].Request?
    ensures Admitted(Log(c, Saturating, m, trace), ip, first, last) <= Room(c, Entry(m, ip), first)
    decreases |trace|
  {
    hide Serve, Room, Log, Admitted;
    if trace == [] {
      NothingLogged(c, m, ip, first, last);
    } else if trace[0].at > last {
      NothingAfter(c, m, trace, trace[0].at, ip, first, last);
    } else {
      var e := trace[0];
      RoomShrinks(c, Entry(m, e.ip), e.at, first, last);
      WithinRoom(c, Step(c, Saturating, m, e), trace[1..], e.at, ip, first, last);
      OneMore(c, m, trace, ip, first, last);
    }
  }

  lemma {:induction false} WithinBound(c: Limits, m: Windows, trace: seq<Event>, now: nat, ip: string, first: nat,
                                       last: nat)
    requires c.max >= 1 && Counted(m) && Ticks(trace, now) && last <= first + c.window
    requires forall i | 0 <= i < |trace| :: trace[i].Request?
    ensures Admitted(Log(c, Saturating, m, trace), ip, first, last) <= 2 * c.max - 1
    decreases |trace|
  {
    if trace == [] {
    } else {
      var e := trace[0];
      if first <= e.at {
        WithinRoom(c, m, trace, e.at, ip, first, last);
      } else {
        WithinBound(c, Step(c, Saturating, m, e), trace[1..], e.at, ip, first, last);
        OneMore(c, m, trace, ip, first, last);
      }
    }
  }

  lemma {:induction false} TicksRequests(trace: seq<Event>, now: nat)
    requires Ticks(trace, now)
    ensures Ticks(Requests(trace), now)
  {
    if trace == [] {
    } else {
      TicksRequests(trace[1..], trace[0].at);
      assert trace[0].Request? ==> Requests(trace)[1..] == Requests(trace[1..]);
    }
  }

  /** Any closed interval no longer than the window sees at most 2 * max - 1 admitted requests of one
      address, over every trace with its evictions, for both counters. */
  lemma RateBound(c: Limits, rule: Rule, trace: seq<Event>, ip: string, first: nat, last: nat)
    requires c.max >= 1 && c.window >= 1 && Ticks(trace, 0) && |trace| < TWO_64
    requires last <= first + c.window
    ensures Admitted(Log(c, rule, map[], trace), ip, first, last) <= 2 * c.max - 1
  {
    hide Log, Admitted;
    CountersAgree(c, trace);
    EvictionInvisibleExactly(c, Saturating);
    assert Invisible(c, Saturating, trace);
    OnlyRequests(trace);
    TicksRequests(trace, 0);
    WithinBound(c, map[], Requests(trace), 0, ip, first, last);
  }

  /** The voice server admits at most 119 requests of one address within 60 seconds. */
  lemma VoiceRateBound(trace: seq<Event>, ip: string, first: nat, last: nat)
    requires Ticks(trace, 0) && |trace| < TWO_64 && last <= first + 60_000_000_000
    ensures Admitted(Log(VOICE_LIMITS, Growing, map[], trace), ip, first, last) <= 119
  {
    hide Log, Admitted, Ticks;
    RateBound(VOICE_LIMITS, Growing, trace, ip, first, last);
  }

  // ---------- Every answer, from the history alone ----------

  ghost predicate OnlyAsks(trace: seq<Event>) {
    forall k | 0 <= k < |trace| :: trace[k].Request?
  }

  function StateAfter(c: Limits, rule: Rule, m: Windows, trace: seq<Event>): Windows {
    if trace == [] then m else Step(c, rule, StateAfter(c, rule, m, trace[..|trace| - 1]), trace[|trace| - 1])
  }

  lemma StateOfFirst(c: Limits, rule: Rule, m: Windows, trace: seq<Event>)
    requires trace != []
    ensures StateAfter(c, rule, Step(c, rule, m, trace[0]), trace[1..]) == StateAfter(c, rule, m, trace)
    decreases |trace|
  {
    hide Step;
    var n := |trace| - 1;
    if n == 0 {
      assert trace[..0] == [] && trace[1..] == [];
    } else {
      assert trace[1..][..n - 1] == trace[..n][1..];
      StateOfFirst(c, rule, m, trace[..n]);
    }
  }

  lemma {:induction false} LogAppend(c: Limits, rule: Rule, m: Windows, front: seq<Event>, back: seq<Event>)
    requires OnlyAsks(front)
    ensures Log(c, rule, m, front + back) == Log(c, rule, m, front) + Log(c, rule, StateAfter(c, rule, m, front), back)
    ensures |Log(c, rule, m, front)| == |front|
    decreases |front|
  {
    hide Serve, Step;
    if front == [] {
      assert front + back == back;
    } else {
      assert (front + back)[1..] == front[1..] + back;
      LogAppend(c, rule, Step(c, rule, m, front[0]), front[1..], back);
      StateOfFirst(c, rule, m, front);
    }
  }

  /** The instants at which `ip` asked. */
  function Times(trace: seq<Event>, ip: string): seq<nat> {
    if trace == [] then []
    else
      var last := trace[|trace| - 1];
      Times(trace[..|trace| - 1], ip) + if last.Request? && last.ip == ip then [last.at] else []
  }

  /** Which request opened the window of the last one: the first of all, and after it every one that
      comes more than a window after the last opening. */
  function Opening(times: seq<nat>, window: nat): (k: nat)
    requires times != []
    ensures k < |times|
  {
    if |times| == 1 then 0
    else
      var k := Opening(times[..|times| - 1], window);
      if times[|times| - 1] > times[k] + window then |times| - 1 else k
  }

  /** The place of the last request in its window, counting from one. */
  function Place(times: seq<nat>, window: nat): nat
    requires times != []
  {
    |times| - Opening(times, window)
  }

  lemma {:induction false} EntryIsHistory(c: Limits, trace: seq<Event>, ip: string)
    requires c.max >= 1 && OnlyAsks(trace)
    ensures var times := Times(trace, ip);
            Entry(StateAfter(c, Saturating, map[], trace), ip) ==
            if times == [] then None
            else Some(Window(Least(c.max, Place(times, c.window)), times[Opening(times, c.window)]))
  {
    if trace == [] {
    } else {
      var front, last := trace[..|trace| - 1], trace[|trace| - 1];
      EntryIsHistory(c, front, ip);
      var before, times := Times(front, ip), Times(trace, ip);
      if last.ip == ip {
        assert times[..|times| - 1] == before;
      } else {
        assert before + [] == before;
      }
    }
  }

  lemma AnswerFromEntry(c: Limits, trace: seq<Event>, e: Event)
    requires c.max >= 1 && OnlyAsks(trace) && e.Request?
    ensures var times := Times(trace + [e], e.ip);
            && times != []
            && (Serve(c, Saturating, Entry(StateAfter(c, Saturating, map[], trace), e.ip), e.at).0
                <==> Place(times, c.window) <= c.max)
  {
    var whole := trace + [e];
    assert whole[..|whole| - 1] == trace;
    EntryIsHistory(c, trace, e.ip);
    var before, times := Times(trace, e.ip), Times(whole, e.ip);
    assert times[..|times| - 1] == before;
  }

  lemma {:induction false} PlainAnswers(c: Limits, trace: seq<Event>, i: nat)
    requires c.max >= 1 && OnlyAsks(trace) && i < |trace|
    ensures |Log(c, Saturating, map[], trace)| == |trace|
    ensures Times(trace[..i + 1], trace[i].ip) != []
    ensures Log(c, Saturating, map[], trace)[i] ==
            Answer(trace[i].ip, trace[i].at, Place(Times(trace[..i + 1], trace[i].ip), c.window) <= c.max)
  {
    hide Serve, StateAfter, Place, Times;
    var front, e := trace[..i], trace[i];
    assert trace == front + trace[i..];
    LogAppend(c, Saturating, map[], front, trace[i..]);
    LogAppend(c, Saturating, map[], trace, []);
    assert trace + [] == trace && trace[..i + 1] == front + [e];
    AnswerFromEntry(c, front, e);
  }

  /** Every answer of either limiter, whatever the evictions: a request is admitted exactly when it is
      among the first `max` of its window, refused ones counted in. */
  lemma AnswersExactly(c: Limits, rule: Rule, trace: seq<Event>, i: nat)
    requires c.max >= 1 && c.window >= 1 && Ticks(trace, 0) && |trace| < TWO_64 && i < |Requests(trace)|
    ensures var asks := Requests(trace);
            && |Log(c, rule, map[], trace)| == |asks|
            && asks[i].Request? && Times(asks[..i + 1], asks[i].ip) != []
            && Log(c, rule, map[], trace)[i] ==
               Answer(asks[i].ip, asks[i].at, Place(Times(asks[..i + 1], asks[i].ip), c.window) <= c.max)
  {
    hide Log, Ticks, Times, Place;
    CountersAgree(c, trace);
    EvictionInvisibleExactly(c, Saturating);
    assert Invisible(c, Saturating, trace);
    OnlyRequests(trace);
    PlainAnswers(c, Requests(trace), i);
  }

  lemma RefusalKeepsState(c: Limits, m: Windows, ip: string, at: nat)
    requires c.max >= 1 && !Serve(c, Saturating, Entry(m, ip), at).0
    ensures Step(c, Saturating, m, Request(ip, at)) == m
  {
  }

  lemma RefusalSkipped(c: Limits, trace: seq<Event>, i: nat)
    requires c.max >= 1 && OnlyAsks(trace) && i < |trace|
    requires |Log(c, Saturating, map[], trace)| == |trace| && !Log(c, Saturating, map[], trace)[i].admitted
    ensures Log(c, Saturating, map[], trace[..i] + trace[i + 1..]) ==
            Log(c, Saturating, map[], trace)[..i] + Log(c, Saturating, map[], trace)[i + 1..]
  {
    hide Serve, StateAfter, Step;
    var front, e, back := trace[..i], trace[i], trace[i + 1..];
    var m := StateAfter(c, Saturating, map[], front);
    assert trace == front + ([e] + back) && ([e] + back)[1..] == back;
    LogAppend(c, Saturating, map[], front, [e] + back);
    LogAppend(c, Saturating, map[], front, back);
    assert Log(c, Saturating, map[], trace)[i] == Log(c, Saturating, m, [e] + back)[0];
    RefusalKeepsState(c, m, e.ip, e.at);
    assert Log(c, Saturating, m, [e] + back)[1..] == Log(c, Saturating, m, back);
  }

  /** Leaving a refused request out of a trace changes no other answer. */
  lemma RefusedLeavesNoTrace(c: Limits, rule: Rule, trace: seq<Event>, i: nat)
    requires c.max >= 1 && OnlyAsks(trace) && |trace| < TWO_64 && i < |trace|
    requires |Log(c, rule, map[], trace)| == |trace| && !Log(c, rule, map[], trace)[i].admitted
    ensures Log(c, rule, map[], trace[..i] + trace[i + 1..]) ==
            Log(c, rule, map[], trace)[..i] + Log(c, rule, map[], trace)[i + 1..]
  {
    hide Log;
    SameAnswersFrom(c, map[], map[], trace, 0);
    SameAnswersFrom(c, map[], map[], trace[..i] + trace[i + 1..], 0);
    RefusalSkipped(c, trace, i);
  }

  /** `n` requests at one instant, then the rest of the trace. */
  function Burst(n: nat, at: nat, rest: seq<Event>): seq<Event> {
    if n == 0 then rest else [Request("a", at)] + Burst(n - 1, at, rest)
  }

  lemma {:induction false} BurstTicks(n: nat, at: nat, rest: seq<Event>)
    requires Ticks(rest, at)
    ensures Ticks(Burst(n, at, rest), at)
  {
    if n == 0 {
    } else {
      BurstTicks(n - 1, at, rest);
      assert Burst(n, at, rest)[1..] == Burst(n - 1, at, rest);
    }
  }

  lemma {:induction false} BurstAdmitted(c: Limits, m: Windows, n: nat, at: nat, rest: seq<Event>, first: nat,
                                         last: nat)
    requires "a" in m && Since(at, m["a"].start) <= c.window && m["a"].count + n <= c.max && first <= at <= last
    ensures Admitted(Log(c, Saturating, m, Burst(n, at, rest)), "a", first, last) ==
            n + Admitted(Log(c, Saturating, m["a" := Window(m["a"].count + n, m["a"].start)], rest), "a", first, last)
  {
    hide Log, Admitted;
    if n == 0 {
      assert m["a" := Window(m["a"].count, m["a"].start)] == m;
    } else {
      var trace := Burst(n, at, rest);
      assert trace[1..] == Burst(n - 1, at, rest);
      OneMore(c, m, trace, "a", first, last);
      var m' := Step(c, Saturating, m, trace[0]);
      BurstAdmitted(c, m', n - 1, at, rest, first, last);
      assert m'["a" := Window(m'["a"].count + (n - 1), m["a"].start)]
          == m["a" := Window(m["a"].count + n, m["a"].start)];
    }
  }

  /** One request, then all the window still takes at its last instant, then a full window. */
  function Worst(c: Limits): seq<Event>
    requires c.max >= 1
  {
    Burst(1, 0, Burst(c.max - 1, c.window, Burst(1, c.window + 1, Burst(c.max - 1, c.window + 1, []))))
  }

  /** The bound is the best possible. */
  lemma RateBoundTight(c: Limits)
    requires c.max >= 1 && c.window >= 1
    ensures Ticks(Worst(c), 0)
    ensures Admitted(Log(c, Saturating, map[], Worst(c)), "a", c.window, 2 * c.window) == 2 * c.max - 1
  {
    hide Log, Admitted, Ticks;
    var w, n, first, last := c.window, c.max - 1, c.window, 2 * c.window;
    var t3 := Burst(n, w + 1, []);
    var t2 := Burst(1, w + 1, t3);
    var t1 := Burst(n, w, t2);
    var t0 := Burst(1, 0, t1);
    assert Burst(0, w + 1, t3) == t3 && Burst(0, 0, t1) == t1;
    assert t2[1..] == t3 && t0[1..] == t1;
    var m0: Windows := map[];
    var m1 := m0["a" := Window(1, 0)];
    var m2 := m0["a" := Window(c.max, 0)];
    var m3 := m0["a" := Window(1, w + 1)];
    OneMore(c, m0, t0, "a", first, last);
    assert m1["a" := Window(1 + n, 0)] == m2;
    BurstAdmitted(c, m1, n, w, t2, first, last);
    OneMore(c, m2, t2, "a", first, last);
    assert m2["a" := Window(1, w + 1)] == m3;
    BurstAdmitted(c, m3, n, w + 1, [], first, last);
    NothingLogged(c, m3["a" := Window(1 + n, w + 1)], "a", first, last);
    WorstTicks(c);
  }

  lemma WorstTicks(c: Limits)
    requires c.max >= 1
    ensures Ticks(Worst(c), 0)
  {
    var w, n := c.window, c.max - 1;
    var t3 := Burst(n, w + 1, []);
    BurstTicks(n, w + 1, []);
    BurstTicks(1, w + 1, t3);
    var t2 := Burst(1, w + 1, t3);
    assert Ticks(t2, w);
    BurstTicks(n, w, t2);
    var t1 := Burst(n, w, t2);
    assert Ticks(t1, 0);
    BurstTicks(1, 0, t1);
  }
}
