/** The per-address rate limiter in front of the authorization server. */
module RateLimit {
  import opened Common

  /** Route name and address. */
  type Key = nat

  datatype Entry = Entry(window: Time, count: nat)

  const MAX_ENTRIES := 1024

  function Current(rate: map<Key, Entry>, now: Time): map<Key, Entry> {
    map k | k in rate && now - rate[k].window < MINUTE :: rate[k]
  }

  /** The table after a request, and whether the request goes through. */
  function Counted(rate: map<Key, Entry>, now: Time, key: Key, limit: int): (map<Key, Entry>, bool) {
    var m := Current(rate, now);
    if key !in m && |m| >= MAX_ENTRIES then (m, false)
    else
      var e := if key in m then Entry(m[key].window, m[key].count + 1) else Entry(now, 1);
      (m[key := e], e.count <= limit)
  }

  class RateLimiter {
    var rate: map<Key, Entry>

    constructor ()
      ensures rate == map[]
    {
      rate := map[];
    }

    method Admit(now: Time, key: Key, limit: int) returns (allowed: bool)
      modifies this
      ensures (rate, allowed) == Counted(old(rate), now, key, limit)
      // other windows stay until they are a minute old, and the own one counts on
      ensures forall k :: k != key ==> (k in rate <==> k in old(rate) && now - old(rate)[k].window < MINUTE)
      ensures forall k :: k != key && k in rate ==> rate[k] == old(rate)[k]
      ensures key in old(rate) && now - old(rate)[key].window < MINUTE ==>
        && key in rate && rate[key] == Entry(old(rate)[key].window, old(rate)[key].count + 1)
        && allowed == (rate[key].count <= limit)
      ensures !(key in old(rate) && now - old(rate)[key].window < MINUTE) ==>
        && (key in rate <==> |Current(old(rate), now)| < 1024)
        && (key in rate ==> rate[key] == Entry(now, 1)) && allowed == (key in rate && 1 <= limit)
    {
      var keys := rate.Keys;
      while keys != {}
        invariant forall k :: k in rate <==> k in old(rate) && (now - old(rate)[k].window < MINUTE || k in keys)
        invariant forall k :: k in rate ==> rate[k] == old(rate)[k]
      {
        var candidate :| candidate in keys;
        if candidate in rate && now - rate[candidate].window >= MINUTE { rate := rate - {candidate}; }
        keys := keys - {candidate};
      }
      assert rate == Current(old(rate), now);
      var found := key in rate;
      if !found && |rate| >= MAX_ENTRIES { return false; }
      var entry := if found then rate[key] else Entry(now, 0);
      if !found || now - entry.window >= MINUTE { entry := Entry(now, 0); }
      entry := entry.(count := entry.count + 1);
      rate := rate[key := entry];
      return entry.count <= limit;
    }
  }

  // ------------------------------------------------------------------- runs

  datatype Request = Request(now: Time, key: Key, allowed: bool)

  ghost predicate StepAt(ms: seq<map<Key, Entry>>, rs: seq<Request>, limits: Key -> nat, i: nat)
    requires i < |rs| && |ms| == |rs| + 1
  {
    (ms[i + 1], rs[i].allowed) == Counted(ms[i], rs[i].now, rs[i].key, limits(rs[i].key))
  }

  /** Requests as they enter, from an empty table; a route has one limit. The clock is read
      before the lock is taken, so the readings need not be in order. */
  ghost predicate IsRun(ms: seq<map<Key, Entry>>, rs: seq<Request>, limits: Key -> nat) {
    && |ms| == |rs| + 1 && ms[0] == map[]
    && (forall i :: 0 <= i < |rs| ==> StepAt(ms, rs, limits, i))
  }

  lemma SmallerMap(m: map<Key, Entry>, now: Time)
    ensures |Current(m, now)| <= |m|
  {
    var kept := Current(m, now);
    assert m.Keys == kept.Keys + (m.Keys - kept.Keys);
    assert |m.Keys| == |m| && |kept.Keys| == |kept|;
  }

  lemma CountedBounded(m: map<Key, Entry>, now: Time, key: Key, limit: int)
    requires |m| <= MAX_ENTRIES
    ensures |Counted(m, now, key, limit).0| <= MAX_ENTRIES
  {
    SmallerMap(m, now);
    var kept, m' := Current(m, now), Counted(m, now, key, limit).0;
    if key in kept {
      assert m'.Keys == kept.Keys;
      assert |m'.Keys| == |m'| && |kept.Keys| == |kept|;
    }
  }

  lemma {:induction false} TableBounded(ms: seq<map<Key, Entry>>, rs: seq<Request>, limits: Key -> nat, i: nat)
    requires IsRun(ms, rs, limits) && i <= |rs|
    ensures |ms[i]| <= MAX_ENTRIES
  {
    if i > 0 {
      TableBounded(ms, rs, limits, i - 1);
      assert StepAt(ms, rs, limits, i - 1);
      CountedBounded(ms[i - 1], rs[i - 1].now, rs[i - 1].key, limits(rs[i - 1].key));
    }
  }

  /** One fewer than two full windows. */
  function LessThanTwice(limit: nat): nat {
    if limit == 0 then 0 else 2 * limit - 1
  }

  function Min(a: int, b: int): int { if a <= b then a else b }

  /** Requests of the key that went through in the half-open stretch. */
  function Passed(rs: seq<Request>, key: Key, i: nat, j: nat): nat
    requires i <= j <= |rs|
    decreases j
  {
    if i == j then 0 else Passed(rs, key, i, j - 1) + (if rs[j - 1].key == key && rs[j - 1].allowed then 1 else 0)
  }

  /** How the key stands after a stretch that began at `from`: still in a window from
      before, in one begun since, or in none. A window from before had at least one of
      its requests before the stretch. */
  ghost predicate Standing(m: map<Key, Entry>, key: Key, limit: nat, from: Time, passed: nat) {
    && (key in m ==> m[key].count > 0)
    && (if limit == 0 then passed == 0
        else if key !in m then passed <= limit - 1
        else if m[key].window < from then passed <= Min(limit, m[key].count) - 1
        else passed <= limit - 1 + Min(limit, m[key].count))
  }

  lemma StandingStep(m: map<Key, Entry>, now: Time, r: Key, key: Key, limits: Key -> nat, from: Time, passed: nat)
    requires Standing(m, key, limits(key), from, passed) && from <= now && now - from < MINUTE
    ensures var (m', ok) := Counted(m, now, r, limits(r));
      Standing(m', key, limits(key), from, passed + (if r == key && ok then 1 else 0))
  {
  }

  lemma {:induction false} CountsPositive(ms: seq<map<Key, Entry>>, rs: seq<Request>, limits: Key -> nat, key: Key, i: nat)
    requires IsRun(ms, rs, limits) && i <= |rs|
    ensures key in ms[i] ==> ms[i][key].count > 0
  {
    if i > 0 {
      CountsPositive(ms, rs, limits, key, i - 1);
      assert StepAt(ms, rs, limits, i - 1);
    }
  }

  /** Every reading of the stretch is in the minute from `from`. */
  predicate WithinMinute(rs: seq<Request>, from: Time, i: nat, j: nat)
    requires i <= j <= |rs|
  {
    forall k :: i <= k < j ==> from <= rs[k].now < from + MINUTE
  }

  lemma {:induction false} StandingRun(ms: seq<map<Key, Entry>>, rs: seq<Request>, limits: Key -> nat, key: Key, from: Time,
                                       i: nat, j: nat)
    requires IsRun(ms, rs, limits) && i <= j <= |rs| && WithinMinute(rs, from, i, j)
    ensures Standing(ms[j], key, limits(key), from, Passed(rs, key, i, j))
    decreases j
  {
    if i < j {
      StandingRun(ms, rs, limits, key, from, i, j - 1);
      assert StepAt(ms, rs, limits, j - 1);
      StandingStep(ms[j - 1], rs[j - 1].now, rs[j - 1].key, key, limits, from, Passed(rs, key, i, j - 1));
    } else {
      CountsPositive(ms, rs, limits, key, i);
    }
  }

  /** Among requests that enter one after the other, all with readings less than a minute
      apart and in any order, less than twice the limit goes through. */
  lemma StretchLimit(ms: seq<map<Key, Entry>>, rs: seq<Request>, limits: Key -> nat, key: Key, from: Time, i: nat, j: nat)
    requires IsRun(ms, rs, limits) && i <= j <= |rs| && WithinMinute(rs, from, i, j)
    ensures Passed(rs, key, i, j) <= LessThanTwice(limits(key))
  {
    StandingRun(ms, rs, limits, key, from, i, j);
  }

  function Two(key: Key): nat { 2 }

  lemma OneEntry(key: Key, e: Entry, now: Time)
    ensures Current(map[], now) == map[]
    ensures Counted(map[], now, key, 2) == (map[key := Entry(now, 1)], true)
    ensures Counted(map[key := e], now, key, 2) ==
      (if now - e.window < MINUTE then (map[key := Entry(e.window, e.count + 1)], e.count + 1 <= 2)
       else (map[key := Entry(now, 1)], true))
  {
    var kept := Current(map[key := e], now);
    assert kept == if now - e.window < MINUTE then map[key := e] else map[];
    assert map[key := e][key := Entry(e.window, e.count + 1)] == map[key := Entry(e.window, e.count + 1)];
  }

  /** The bound is reached: with a limit of two, three requests pass within a second. */
  lemma BoundReached(key: Key) returns (ms: seq<map<Key, Entry>>, rs: seq<Request>)
    ensures IsRun(ms, rs, Two) && |rs| == 4
    ensures rs[3].now - rs[1].now == SECOND && Passed(rs, key, 1, |rs|) == 3
  {
    rs := [Request(0, key, true), Request(MINUTE - SECOND, key, true), Request(MINUTE, key, true), Request(MINUTE, key, true)];
    ms := [map[], map[key := Entry(0, 1)], map[key := Entry(0, 2)], map[key := Entry(MINUTE, 1)], map[key := Entry(MINUTE, 2)]];
    OneEntry(key, Entry(0, 1), 0);
    OneEntry(key, Entry(0, 1), MINUTE - SECOND);
    OneEntry(key, Entry(0, 2), MINUTE);
    OneEntry(key, Entry(MINUTE, 1), MINUTE);
    PassedThree(rs, key);
  }

  lemma PassedThree(rs: seq<Request>, key: Key)
    requires |rs| == 4 && forall i :: 1 <= i < 4 ==> rs[i].key == key && rs[i].allowed
    ensures Passed(rs, key, 1, |rs|) == 3
  {
    assert Passed(rs, key, 1, 1) == 0;
    assert Passed(rs, key, 1, 2) == 1;
    assert Passed(rs, key, 1, 3) == 2;
  }

  // ------------------------------------------------------------- one window

  /** In any order: while one window of a key stays in the table, it lets no more than the
      limit through, the request that began it included. */
  lemma {:induction false} OneWindowLimit(ms: seq<map<Key, Entry>>, rs: seq<Request>, limits: Key -> nat, key: Key,
                                          window: Time, i: nat, j: nat)
    requires IsRun(ms, rs, limits) && i < j <= |rs|
    requires forall k :: i < k <= j ==> key in ms[k] && ms[k][key].window == window
    ensures Passed(rs, key, i, j) <= Min(limits(key), ms[j][key].count)
    decreases j
  {
    assert StepAt(ms, rs, limits, j - 1);
    CountsPositive(ms, rs, limits, key, j - 1);
    if i + 1 < j { OneWindowLimit(ms, rs, limits, key, window, i, j - 1); }
  }
}
