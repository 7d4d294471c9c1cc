/** Exactly when the rate limiter keeps its bounds: what the order in which requests enter
    must not do to the clock readings they bring. */
module RateLimitOrder {
  import opened Common
  import opened RateLimit

  /** The readings of the requests, in the order of entry. */
  ghost predicate Reads(rs: seq<Request>, times: seq<Time>) {
    |rs| == |times| && forall i :: 0 <= i < |rs| ==> rs[i].now == times[i]
  }

  predicate Within(from: Time, t: Time) {
    from <= t < from + MINUTE
  }

  predicate InSpan(r: Request, key: Key, from: Time) {
    r.key == key && r.allowed && Within(from, r.now)
  }

  /** Of the first `n` requests, those of the key that went through with a reading in the
      minute from `from`, wherever in the run they are. */
  function PassedWithin(rs: seq<Request>, key: Key, from: Time, n: nat): nat
    requires n <= |rs|
  {
    if n == 0 then 0 else PassedWithin(rs, key, from, n - 1) + (if InSpan(rs[n - 1], key, from) then 1 else 0)
  }

  predicate InWindow(m: map<Key, Entry>, r: Request, key: Key, window: Time) {
    r.key == key && r.allowed && key in m && m[key].window == window
  }

  /** Those of the key that went through and were counted in a window begun at `window`. */
  function PassedIn(ms: seq<map<Key, Entry>>, rs: seq<Request>, key: Key, window: Time, n: nat): nat
    requires n <= |rs| && |ms| == |rs| + 1
  {
    if n == 0 then 0 else PassedIn(ms, rs, key, window, n - 1) + (if InWindow(ms[n], rs[n - 1], key, window) then 1 else 0)
  }

  ghost predicate KeepsSpan(rs: seq<Request>, limits: Key -> nat, key: Key, from: Time) {
    PassedWithin(rs, key, from, |rs|) <= LessThanTwice(limits(key))
  }

  ghost predicate KeepsWindow(ms: seq<map<Key, Entry>>, rs: seq<Request>, limits: Key -> nat, key: Key, window: Time)
    requires |ms| == |rs| + 1
  {
    PassedIn(ms, rs, key, window, |rs|) <= limits(key)
  }

  /** Whatever requests bring these readings: in every minute of readings less than twice
      the limit goes through. */
  ghost predicate SpanBound(times: seq<Time>) {
    forall ms, rs, limits, key, from :: IsRun(ms, rs, limits) && Reads(rs, times) ==> KeepsSpan(rs, limits, key, from)
  }

  /** And the windows of a key begun at one reading let no more than the limit through. */
  ghost predicate WindowBound(times: seq<Time>) {
    forall ms, rs, limits, key, window :: IsRun(ms, rs, limits) && Reads(rs, times) ==> KeepsWindow(ms, rs, limits, key, window)
  }

  /** Between `i` and `k` a reading at least a minute after the one of `i` entered. */
  predicate Overtaken(times: seq<Time>, i: int, j: int, k: int) {
    0 <= i < j < k < |times| && times[i] + MINUTE <= times[j]
  }

  predicate Near(a: Time, b: Time) {
    a - b < MINUTE && b - a < MINUTE
  }

  /** No two readings less than a minute apart are overtaken by a minute. */
  ghost predicate NearNotOvertaken(times: seq<Time>) {
    forall i, j, k :: Overtaken(times, i, j, k) ==> !Near(times[i], times[k])
  }

  /** No reading that comes again is overtaken by a minute before it does. */
  ghost predicate SameNotOvertaken(times: seq<Time>) {
    forall i, j, k :: Overtaken(times, i, j, k) ==> times[i] != times[k]
  }

  // ------------------------------------------------------------- one request

  /** What a request does to the entry of one key. */
  lemma EntryAfter(m: map<Key, Entry>, now: Time, r: Key, limit: int, key: Key)
    ensures var (m', ok) := Counted(m, now, r, limit);
      var kept := key in m && now - m[key].window < MINUTE;
      if r != key then (key in m' <==> kept) && (kept ==> m'[key] == m[key])
      else if kept then key in m' && m'[key] == Entry(m[key].window, m[key].count + 1) && (ok <==> m'[key].count <= limit)
      else if key in m' then m'[key] == Entry(now, 1) && (ok <==> 1 <= limit)
      else !ok
  {
  }

  /** The window of an entry is the reading of a request of its key. */
  lemma {:induction false} WindowBegan(ms: seq<map<Key, Entry>>, rs: seq<Request>, limits: Key -> nat, key: Key, n: nat) returns (i: nat)
    requires IsRun(ms, rs, limits) && n <= |rs| && key in ms[n]
    ensures i < n && rs[i].now == ms[n][key].window
    decreases n
  {
    assert StepAt(ms, rs, limits, n - 1);
    EntryAfter(ms[n - 1], rs[n - 1].now, rs[n - 1].key, limits(rs[n - 1].key), key);
    if key in ms[n - 1] && ms[n - 1][key].window == ms[n][key].window {
      i := WindowBegan(ms, rs, limits, key, n - 1);
    } else {
      i := n - 1;
    }
  }

  lemma {:induction false} SomeInSpan(rs: seq<Request>, key: Key, from: Time, n: nat) returns (i: nat)
    requires n <= |rs| && PassedWithin(rs, key, from, n) > 0
    ensures i < n && Within(from, rs[i].now)
  {
    if InSpan(rs[n - 1], key, from) { i := n - 1; } else { i := SomeInSpan(rs, key, from, n - 1); }
  }

  // ---------------------------------------------------- the order is enough

  /** A reading between the two was overtaken by a minute. */
  ghost predicate Gone(times: seq<Time>, after: Time, before: Time, n: nat) {
    exists i, j :: 0 <= i < j < n <= |times| && after <= times[i] < before && times[i] + MINUTE <= times[j]
  }

  lemma GoneMore(times: seq<Time>, after: Time, before: Time, n: nat)
    requires Gone(times, after, before, n) && n < |times|
    ensures Gone(times, after, before, n + 1)
  {
  }

  lemma GoneNow(times: seq<Time>, after: Time, before: Time, i: nat, n: nat)
    requires i < n < |times| && after <= times[i] < before && times[i] + MINUTE <= times[n]
    ensures Gone(times, after, before, n + 1)
  {
  }

  /** What has gone does not come again. */
  lemma NotAgain(times: seq<Time>, after: Time, before: Time, n: nat)
    requires NearNotOvertaken(times) && Gone(times, after, before, n) && n < |times| && before - after <= MINUTE
    ensures !(after <= times[n] < before)
  {
    var i, j :| 0 <= i < j < n && after <= times[i] < before && times[i] + MINUTE <= times[j];
    assert Overtaken(times, i, j, n);
  }

  /** Its requests of the span are counted in a window begun less than a minute before it,
      which counted at least one request from before it. */
  ghost predicate InOldWindow(m: map<Key, Entry>, key: Key, limit: nat, from: Time, passed: nat) {
    key in m && from - MINUTE < m[key].window < from && passed < Min(limit, m[key].count)
  }

  /** That window is gone, and none that can count requests of the span is there. */
  ghost predicate BetweenWindows(times: seq<Time>, m: map<Key, Entry>, key: Key, limit: nat, from: Time, n: nat, passed: nat) {
    passed < limit && (key in m ==> m[key].window <= from - MINUTE) && Gone(times, from - MINUTE + 1, from, n)
  }

  /** They are counted in the last window that can. */
  ghost predicate InLastWindow(m: map<Key, Entry>, key: Key, limit: nat, from: Time, passed: nat) {
    key in m && from <= m[key].window && passed < limit + Min(limit, m[key].count)
  }

  /** A reading of the span was overtaken: no other comes. */
  ghost predicate SpanOver(times: seq<Time>, limit: nat, from: Time, n: nat, passed: nat) {
    passed < 2 * limit && Gone(times, from, from + MINUTE, n)
  }

  /** How a key stands towards a span after `n` requests. */
  ghost predicate Stage(times: seq<Time>, m: map<Key, Entry>, key: Key, limit: nat, from: Time, n: nat, passed: nat) {
    || passed == 0
    || InOldWindow(m, key, limit, from, passed)
    || BetweenWindows(times, m, key, limit, from, n, passed)
    || InLastWindow(m, key, limit, from, passed)
    || SpanOver(times, limit, from, n, passed)
  }

  /** A run with these readings, of which request `n` comes next. */
  ghost predicate Part(ms: seq<map<Key, Entry>>, rs: seq<Request>, limits: Key -> nat, times: seq<Time>, n: nat) {
    IsRun(ms, rs, limits) && Reads(rs, times) && NearNotOvertaken(times) && n < |rs|
  }

  lemma StageStep(ms: seq<map<Key, Entry>>, rs: seq<Request>, limits: Key -> nat, times: seq<Time>, key: Key, from: Time, n: nat)
    requires Part(ms, rs, limits, times, n)
    requires Stage(times, ms[n], key, limits(key), from, n, PassedWithin(rs, key, from, n))
    ensures Stage(times, ms[n + 1], key, limits(key), from, n + 1, PassedWithin(rs, key, from, n + 1))
  {
    var m, limit, passed := ms[n], limits(key), PassedWithin(rs, key, from, n);
    assert StepAt(ms, rs, limits, n);
    EntryAfter(m, times[n], rs[n].key, limits(rs[n].key), key);
    CountsPositive(ms, rs, limits, key, n);
    if passed == 0 {
    } else if InOldWindow(m, key, limit, from, passed) {
      if times[n] - m[key].window >= MINUTE {
        var i := WindowBegan(ms, rs, limits, key, n);
        GoneNow(times, from - MINUTE + 1, from, i, n);
      }
    } else if BetweenWindows(times, m, key, limit, from, n, passed) {
      NotAgain(times, from - MINUTE + 1, from, n);
      GoneMore(times, from - MINUTE + 1, from, n);
    } else if InLastWindow(m, key, limit, from, passed) {
      if times[n] - m[key].window >= MINUTE {
        var i;
        if Within(from, m[key].window) { i := WindowBegan(ms, rs, limits, key, n); } else { i := SomeInSpan(rs, key, from, n); }
        GoneNow(times, from, from + MINUTE, i, n);
      }
    } else {
      NotAgain(times, from, from + MINUTE, n);
      GoneMore(times, from, from + MINUTE, n);
    }
  }

  lemma {:induction false} StageRun(ms: seq<map<Key, Entry>>, rs: seq<Request>, limits: Key -> nat, times: seq<Time>, key: Key, from: Time, n: nat)
    requires IsRun(ms, rs, limits) && Reads(rs, times) && NearNotOvertaken(times) && n <= |rs|
    ensures Stage(times, ms[n], key, limits(key), from, n, PassedWithin(rs, key, from, n))
  {
    if n > 0 {
      StageRun(ms, rs, limits, times, key, from, n - 1);
      StageStep(ms, rs, limits, times, key, from, n - 1);
    }
  }

  lemma NearEnough(times: seq<Time>)
    requires NearNotOvertaken(times)
    ensures SpanBound(times)
  {
    forall ms, rs, limits, key, from | IsRun(ms, rs, limits) && Reads(rs, times) ensures KeepsSpan(rs, limits, key, from) {
      StageRun(ms, rs, limits, times, key, from, |rs|);
    }
  }

  // ----------------------------------------------------- and for one window

  /** How a key stands towards the windows begun at one reading: in one; or one is gone and
      none comes again; or none counted anything yet. */
  ghost predicate WindowStage(times: seq<Time>, m: map<Key, Entry>, key: Key, limit: nat, window: Time, n: nat, passed: nat) {
    if key in m && m[key].window == window then passed <= Min(limit, m[key].count)
    else passed == 0 || (passed <= limit && Gone(times, window, window + 1, n))
  }

  lemma SameNotAgain(times: seq<Time>, window: Time, n: nat)
    requires SameNotOvertaken(times) && Gone(times, window, window + 1, n) && n < |times|
    ensures times[n] != window
  {
    var i, j :| 0 <= i < j < n && window <= times[i] < window + 1 && times[i] + MINUTE <= times[j];
    assert Overtaken(times, i, j, n);
  }

  lemma WindowStep(ms: seq<map<Key, Entry>>, rs: seq<Request>, limits: Key -> nat, times: seq<Time>, key: Key, window: Time, n: nat)
    requires IsRun(ms, rs, limits) && Reads(rs, times) && SameNotOvertaken(times) && n < |rs|
    requires WindowStage(times, ms[n], key, limits(key), window, n, PassedIn(ms, rs, key, window, n))
    ensures WindowStage(times, ms[n + 1], key, limits(key), window, n + 1, PassedIn(ms, rs, key, window, n + 1))
  {
    var m, limit, passed := ms[n], limits(key), PassedIn(ms, rs, key, window, n);
    assert StepAt(ms, rs, limits, n);
    EntryAfter(m, times[n], rs[n].key, limits(rs[n].key), key);
    if key in m && m[key].window == window {
      if times[n] - window >= MINUTE {
        var i := WindowBegan(ms, rs, limits, key, n);
        GoneNow(times, window, window + 1, i, n);
      }
    } else if passed != 0 {
      SameNotAgain(times, window, n);
      GoneMore(times, window, window + 1, n);
    }
  }

  lemma {:induction false} WindowRun(ms: seq<map<Key, Entry>>, rs: seq<Request>, limits: Key -> nat, times: seq<Time>, key: Key, window: Time, n: nat)
    requires IsRun(ms, rs, limits) && Reads(rs, times) && SameNotOvertaken(times) && n <= |rs|
    ensures WindowStage(times, ms[n], key, limits(key), window, n, PassedIn(ms, rs, key, window, n))
  {
    if n > 0 {
      WindowRun(ms, rs, limits, times, key, window, n - 1);
      WindowStep(ms, rs, limits, times, key, window, n - 1);
    }
  }

  lemma SameEnough(times: seq<Time>)
    requires SameNotOvertaken(times)
    ensures WindowBound(times)
  {
    forall ms, rs, limits, key, window | IsRun(ms, rs, limits) && Reads(rs, times) ensures KeepsWindow(ms, rs, limits, key, window) {
      WindowRun(ms, rs, limits, times, key, window, |rs|);
    }
  }

  // ------------------------------------------------- and nothing less will do

  function One(key: Key): nat { 1 }

  /** Requests `i` and `k` are of one key, all others of another. */
  function KeyAt(i: nat, k: nat, n: nat): Key {
    if n == i || n == k then 0 else 1
  }

  function Table(times: seq<Time>, i: nat, k: nat, n: nat): map<Key, Entry>
    requires n <= |times|
  {
    if n == 0 then map[] else Counted(Table(times, i, k, n - 1), times[n - 1], KeyAt(i, k, n - 1), 1).0
  }

  function RequestAt(times: seq<Time>, i: nat, k: nat, n: nat): Request
    requires n < |times|
  {
    Request(times[n], KeyAt(i, k, n), Counted(Table(times, i, k, n), times[n], KeyAt(i, k, n), 1).1)
  }

  function Requests(times: seq<Time>, i: nat, k: nat): seq<Request> {
    seq(|times|, n requires 0 <= n < |times| => RequestAt(times, i, k, n))
  }

  function Tables(times: seq<Time>, i: nat, k: nat): seq<map<Key, Entry>> {
    seq(|times| + 1, n requires 0 <= n <= |times| => Table(times, i, k, n))
  }

  lemma IsRunWithTwo(times: seq<Time>, i: nat, k: nat)
    ensures IsRun(Tables(times, i, k), Requests(times, i, k), One) && Reads(Requests(times, i, k), times)
  {
    var ms, rs := Tables(times, i, k), Requests(times, i, k);
    forall n | 0 <= n < |rs| ensures StepAt(ms, rs, One, n) {
      assert ms[n + 1] == Table(times, i, k, n + 1) && rs[n] == RequestAt(times, i, k, n);
    }
  }

  /** The key is new at `i`, gone at `j` and new again at `k`. */
  lemma {:induction false} FirstKey(times: seq<Time>, i: nat, j: nat, k: nat, n: nat)
    requires Overtaken(times, i, j, k) && n <= k
    ensures var m := Table(times, i, k, n);
      && m.Keys <= {0, 1} && (n <= i || n > j ==> 0 !in m) && (0 in m ==> m[0].window == times[i])
  {
    if n > 0 {
      FirstKey(times, i, j, k, n - 1);
      EntryAfter(Table(times, i, k, n - 1), times[n - 1], KeyAt(i, k, n - 1), 1, 0);
    }
  }

  lemma NewPasses(times: seq<Time>, i: nat, j: nat, k: nat, n: nat)
    requires Overtaken(times, i, j, k) && (n == i || n == k)
    ensures RequestAt(times, i, k, n) == Request(times[n], 0, true)
    ensures 0 in Table(times, i, k, n + 1) && Table(times, i, k, n + 1)[0].window == times[n]
  {
    var m := Current(Table(times, i, k, n), times[n]);
    FirstKey(times, i, j, k, n);
    assert |m.Keys| <= |{0, 1}| by { Smaller(m.Keys, {0, 1}); }
    assert |m| == |m.Keys|;
    EntryAfter(Table(times, i, k, n), times[n], 0, 1, 0);
  }

  /** A request of a key that goes through in a window of its own. */
  ghost predicate NewAt(ms: seq<map<Key, Entry>>, rs: seq<Request>, key: Key, n: nat)
    requires |ms| == |rs| + 1 && n < |rs|
  {
    rs[n].key == key && rs[n].allowed && key in ms[n + 1] && ms[n + 1][key].window == rs[n].now
  }

  lemma NewThere(times: seq<Time>, i: nat, j: nat, k: nat, n: nat)
    requires Overtaken(times, i, j, k) && (n == i || n == k)
    ensures NewAt(Tables(times, i, k), Requests(times, i, k), 0, n)
  {
    var ms, rs := Tables(times, i, k), Requests(times, i, k);
    assert ms[n + 1] == Table(times, i, k, n + 1);
    assert rs[n] == RequestAt(times, i, k, n);
    NewPasses(times, i, j, k, n);
  }

  lemma RunWithTwo(times: seq<Time>, i: nat, j: nat, k: nat) returns (ms: seq<map<Key, Entry>>, rs: seq<Request>)
    requires Overtaken(times, i, j, k)
    ensures IsRun(ms, rs, One) && Reads(rs, times) && NewAt(ms, rs, 0, i) && NewAt(ms, rs, 0, k)
  {
    ms, rs := Tables(times, i, k), Requests(times, i, k);
    IsRunWithTwo(times, i, k);
    NewThere(times, i, j, k, i);
    NewThere(times, i, j, k, k);
  }

  lemma Smaller(a: set<Key>, b: set<Key>)
    requires a <= b
    ensures |a| <= |b|
  {
    assert b == a + (b - a);
  }

  lemma {:induction false} PassedTwice(rs: seq<Request>, key: Key, from: Time, i: nat, k: nat, n: nat)
    requires i < k && n <= |rs|
    requires i < |rs| ==> InSpan(rs[i], key, from)
    requires k < |rs| ==> InSpan(rs[k], key, from)
    ensures PassedWithin(rs, key, from, n) >= (if n <= i then 0 else if n <= k then 1 else 2)
  {
    if n > 0 { PassedTwice(rs, key, from, i, k, n - 1); }
  }

  lemma {:induction false} CountedTwice(ms: seq<map<Key, Entry>>, rs: seq<Request>, key: Key, window: Time, i: nat, k: nat, n: nat)
    requires i < k && n <= |rs| && |ms| == |rs| + 1
    requires i < |rs| ==> InWindow(ms[i + 1], rs[i], key, window)
    requires k < |rs| ==> InWindow(ms[k + 1], rs[k], key, window)
    ensures PassedIn(ms, rs, key, window, n) >= (if n <= i then 0 else if n <= k then 1 else 2)
  {
    if n > 0 { CountedTwice(ms, rs, key, window, i, k, n - 1); }
  }

  lemma OvertakenBreaksSpan(times: seq<Time>, i: nat, j: nat, k: nat)
    requires Overtaken(times, i, j, k) && Near(times[i], times[k])
    ensures !SpanBound(times)
  {
    var ms, rs := RunWithTwo(times, i, j, k);
    var from := Min(times[i], times[k]);
    PassedTwice(rs, 0, from, i, k, |rs|);
    assert !KeepsSpan(rs, One, 0, from);
  }

  lemma OvertakenBreaksWindow(times: seq<Time>, i: nat, j: nat, k: nat)
    requires Overtaken(times, i, j, k) && times[i] == times[k]
    ensures !WindowBound(times)
  {
    var ms, rs := RunWithTwo(times, i, j, k);
    CountedTwice(ms, rs, 0, times[i], i, k, |rs|);
    assert !KeepsWindow(ms, rs, One, 0, times[i]);
  }

  // ------------------------------------------------------------ the theorems

  /** Requests with these readings keep less than twice the limit in every minute of
      readings, exactly when no two readings less than a minute apart have one between them
      that is a minute later than the first. */
  lemma LessThanTwiceTheLimit(times: seq<Time>)
    ensures SpanBound(times) <==> NearNotOvertaken(times)
  {
    if NearNotOvertaken(times) {
      NearEnough(times);
    } else {
      var i, j, k :| Overtaken(times, i, j, k) && Near(times[i], times[k]);
      OvertakenBreaksSpan(times, i, j, k);
    }
  }

  /** And the windows of a key begun at one reading keep the limit exactly when no reading
      that comes again has one between that is a minute later. */
  lemma WindowLimit(times: seq<Time>)
    ensures WindowBound(times) <==> SameNotOvertaken(times)
  {
    if SameNotOvertaken(times) {
      SameEnough(times);
    } else {
      var i, j, k :| Overtaken(times, i, j, k) && times[i] == times[k];
      OvertakenBreaksWindow(times, i, j, k);
    }
  }

  predicate Ordered(times: seq<Time>) {
    forall i, j :: 0 <= i <= j < |times| ==> times[i] <= times[j]
  }

  /** Clock order is one order that keeps both. */
  lemma OrderedKeepsBounds(times: seq<Time>)
    requires Ordered(times)
    ensures SpanBound(times) && WindowBound(times)
  {
    LessThanTwiceTheLimit(times);
    WindowLimit(times);
  }

  /** A race of a nanosecond breaks the first, with a third request that read the clock just
      before the second and entered just after it; the second needs a reading to come again. */
  lemma LateEntryBreaksBounds()
    ensures !SpanBound([0, MINUTE, MINUTE - 1]) && WindowBound([0, MINUTE, MINUTE - 1])
    ensures !WindowBound([0, MINUTE, 0])
  {
    assert Overtaken([0, MINUTE, MINUTE - 1], 0, 1, 2) && Near(0, MINUTE - 1);
    LessThanTwiceTheLimit([0, MINUTE, MINUTE - 1]);
    WindowLimit([0, MINUTE, MINUTE - 1]);
    assert Overtaken([0, MINUTE, 0], 0, 1, 2);
    WindowLimit([0, MINUTE, 0]);
  }
}
