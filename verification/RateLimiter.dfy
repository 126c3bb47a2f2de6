/** The fixed-window limiter of src/rate_limiter.rs and the sliding bound it gives. */
module RateLimiting {
  import opened Wrappers
  import opened Tasks

  type Group = string

  const WINDOW_SECONDS := 60
  const WINDOW: Time := WINDOW_SECONDS * SECOND

  datatype RateWindow = RateWindow(count: int, start: Time)

  /** `num_seconds`: whole seconds, cut toward zero. */
  function NumSeconds(d: Time): int {
    if d >= 0 then d / SECOND else -((-d) / SECOND)
  }

  /** The window of `group` as a call at `now` finds it: new, restarted, or as it was. */
  function WindowAt(limits: map<Group, RateWindow>, group: Group, now: Time): RateWindow {
    if group !in limits then RateWindow(0, now)
    else if NumSeconds(now - limits[group].start) >= WINDOW_SECONDS then RateWindow(0, now)
    else limits[group]
  }

  predicate Grants(limits: map<Group, RateWindow>, group: Group, limit: int, now: Time) {
    WindowAt(limits, group, now).count < limit
  }

  function After(limits: map<Group, RateWindow>, group: Group, limit: int, now: Time): map<Group, RateWindow> {
    var w := WindowAt(limits, group, now);
    limits[group := if w.count < limit then w.(count := w.count + 1) else w]
  }

  class RateLimiter {
    var file: Option<map<Group, RateWindow>> // None: missing, empty or unparsable

    constructor ()
      ensures file == None
    {
      file := None;
    }

    /** `check_and_increment`, under the file lock; a file that does not parse starts over. */
    method CheckAndIncrement(group: Group, limit: int, now: Time) returns (allow: bool)
      modifies this
      ensures var limits := if old(file).Some? then old(file).value else map[];
              allow == Grants(limits, group, limit, now) && file == Some(After(limits, group, limit, now))
      ensures var limits := if old(file).Some? then old(file).value else map[];
              var open := group in limits && now - limits[group].start < 60 * SECOND;
              var before := if open then limits[group] else RateWindow(0, now);
              && (allow <==> before.count < limit)
              && file == Some(limits[group := if allow then before.(count := before.count + 1) else before])
    {
      var limits := if file.Some? then file.value else map[];
      ghost var found := limits;
      if group !in limits {
        limits := limits[group := RateWindow(0, now)];
      }
      var window := limits[group];
      if NumSeconds(now - window.start) >= WINDOW_SECONDS {
        window := RateWindow(0, now);
      }
      allow := false;
      if window.count < limit {
        window := window.(count := window.count + 1);
        allow := true;
      }
      assert limits[group := window] == found[group := window];
      file := Some(limits[group := window]);
    }
  }

  // ------------------------------------------------------------------- runs

  datatype Call = Call(group: Group, limit: int, now: Time)

  /** Calls in clock order on a file that starts out empty and stays intact. */
  ghost predicate IsRun(states: seq<map<Group, RateWindow>>, calls: seq<Call>) {
    && |states| == |calls| + 1 && states[0] == map[]
    && (forall i :: 0 <= i < |calls| ==> states[i + 1] == After(states[i], calls[i].group, calls[i].limit, calls[i].now))
    && (forall i, j :: 0 <= i <= j < |calls| ==> calls[i].now <= calls[j].now)
  }

  ghost predicate ConstantLimit(calls: seq<Call>, group: Group, limit: int) {
    forall i :: 0 <= i < |calls| && calls[i].group == group ==> calls[i].limit == limit
  }

  predicate GrantAt(states: seq<map<Group, RateWindow>>, calls: seq<Call>, group: Group, i: nat)
    requires |states| > i && |calls| > i
  {
    calls[i].group == group && Grants(states[i], group, calls[i].limit, calls[i].now)
  }

  /** The grants of `group` among the first `n` calls with `lo <= now < hi`. */
  function CountGrants(states: seq<map<Group, RateWindow>>, calls: seq<Call>, group: Group, n: nat, lo: Time, hi: Time): nat
    requires n <= |calls| < |states|
  {
    if n == 0 then 0
    else
      CountGrants(states, calls, group, n - 1, lo, hi)
      + if GrantAt(states, calls, group, n - 1) && lo <= calls[n - 1].now < hi then 1 else 0
  }

  /** A call touches only its own group's window. */
  lemma OtherGroupsUnaffected(limits: map<Group, RateWindow>, group: Group, limit: int, now: Time, other: Group)
    requires other != group
    ensures other in After(limits, group, limit, now) <==> other in limits
    ensures other in limits ==> After(limits, group, limit, now)[other] == limits[other]
    ensures WindowAt(After(limits, group, limit, now), other, now) == WindowAt(limits, other, now)
  {}

  lemma WholeSeconds(d: Time)
    ensures NumSeconds(d) >= WINDOW_SECONDS <==> d >= WINDOW
  {}

  /** A window that starts is a grant, and starts at least a minute after the last one. */
  lemma StartsApart(limits: map<Group, RateWindow>, group: Group, limit: int, now: Time)
    requires limit >= 1
    ensures var after := After(limits, group, limit, now);
            && group in after
            && (group !in limits || after[group].start != limits[group].start ==>
                  after[group] == RateWindow(1, now) && Grants(limits, group, limit, now))
            && (group in limits && after[group].start != limits[group].start ==> now >= limits[group].start + 60 * SECOND)
  {
    if group in limits {
      WholeSeconds(now - limits[group].start);
    }
  }

  /** Where the count of an interval of one minute stands after `n` calls, by where the
      current window started: before the interval, in it, or after it. */
  ghost predicate Tally(limits: map<Group, RateWindow>, group: Group, limit: int, lo: Time, c: nat) {
    if group !in limits then c == 0
    else
      var w := limits[group];
      && 1 <= w.count <= limit
      && (w.start < lo ==> c <= w.count - 1)
      && (lo <= w.start < lo + WINDOW ==> c <= limit - 1 + w.count)
      && c <= 2 * limit - 1
  }

  lemma TallyStep(limits: map<Group, RateWindow>, group: Group, limit: int, now: Time, lo: Time, c: nat)
    requires limit >= 1 && Tally(limits, group, limit, lo, c)
    requires now < lo ==> c == 0
    requires group in limits ==> limits[group].start <= now
    ensures Tally(After(limits, group, limit, now), group, limit, lo,
                  c + if Grants(limits, group, limit, now) && lo <= now < lo + WINDOW then 1 else 0)
    ensures After(limits, group, limit, now)[group].start <= now
  {
    if group in limits {
      WholeSeconds(now - limits[group].start);
    }
  }

  lemma {:induction false} TallyHolds(
      states: seq<map<Group, RateWindow>>, calls: seq<Call>, group: Group, limit: int, n: nat, lo: Time)
    requires IsRun(states, calls) && ConstantLimit(calls, group, limit) && limit >= 1 && n <= |calls|
    ensures Tally(states[n], group, limit, lo, CountGrants(states, calls, group, n, lo, lo + WINDOW))
    ensures n > 0 && calls[n - 1].now < lo ==> CountGrants(states, calls, group, n, lo, lo + WINDOW) == 0
    ensures group in states[n] ==> n > 0 && states[n][group].start <= calls[n - 1].now
  {
    if n > 0 {
      TallyHolds(states, calls, group, limit, n - 1, lo);
      var c := CountGrants(states, calls, group, n - 1, lo, lo + WINDOW);
      var call := calls[n - 1];
      assert n > 1 ==> calls[n - 2].now <= call.now;
      if call.group == group {
        TallyStep(states[n - 1], group, limit, call.now, lo, c);
      } else {
        OtherGroupsUnaffected(states[n - 1], call.group, call.limit, call.now, group);
      }
    }
  }

  lemma {:induction false} NothingGranted(
      states: seq<map<Group, RateWindow>>, calls: seq<Call>, group: Group, limit: int, n: nat, lo: Time, hi: Time)
    requires IsRun(states, calls) && ConstantLimit(calls, group, limit) && limit <= 0 && n <= |calls|
    ensures CountGrants(states, calls, group, n, lo, hi) == 0
    ensures group in states[n] ==> states[n][group].count == 0
  {
    if n > 0 {
      NothingGranted(states, calls, group, limit, n - 1, lo, hi);
    }
  }

  /** No grant of the group is later than its current window. */
  lemma {:induction false} NothingBeyondWindow(
      states: seq<map<Group, RateWindow>>, calls: seq<Call>, group: Group, limit: int, n: nat, lo: Time, hi: Time)
    requires IsRun(states, calls) && ConstantLimit(calls, group, limit) && limit >= 1 && n <= |calls|
    requires group in states[n] ==> lo >= states[n][group].start + WINDOW
    ensures CountGrants(states, calls, group, n, lo, hi) == 0
  {
    if n > 0 {
      var call := calls[n - 1];
      TallyHolds(states, calls, group, limit, n - 1, lo);
      assert n > 1 ==> calls[n - 2].now <= call.now;
      if call.group == group {
        if group in states[n - 1] { WholeSeconds(call.now - states[n - 1][group].start); }
        assert call.now < states[n][group].start + WINDOW;
      } else {
        OtherGroupsUnaffected(states[n - 1], call.group, call.limit, call.now, group);
      }
      NothingBeyondWindow(states, calls, group, limit, n - 1, lo, hi);
    }
  }

  /** The count of the current window is the number of grants in it. */
  ghost predicate CountHolds(states: seq<map<Group, RateWindow>>, calls: seq<Call>, group: Group, n: nat)
    requires n <= |calls| < |states|
  {
    group in states[n] ==>
      var w := states[n][group];
      w.count == CountGrants(states, calls, group, n, w.start, w.start + WINDOW)
  }

  lemma CountHoldsStep(states: seq<map<Group, RateWindow>>, calls: seq<Call>, group: Group, limit: int, n: nat)
    requires IsRun(states, calls) && ConstantLimit(calls, group, limit) && limit >= 1 && n < |calls|
    requires CountHolds(states, calls, group, n) && calls[n].group == group
    ensures CountHolds(states, calls, group, n + 1)
  {
    var now := calls[n].now;
    TallyHolds(states, calls, group, limit, n, now);
    assert n > 0 ==> calls[n - 1].now <= now;
    if group in states[n] { WholeSeconds(now - states[n][group].start); }
    if group !in states[n] || now >= states[n][group].start + WINDOW {
      NothingBeyondWindow(states, calls, group, limit, n, now, now + WINDOW);
    }
  }

  /** What the file stores as the count of a window is the number of grants in it. */
  lemma {:induction false} CountIsGrants(
      states: seq<map<Group, RateWindow>>, calls: seq<Call>, group: Group, limit: int, n: nat)
    requires IsRun(states, calls) && ConstantLimit(calls, group, limit) && limit >= 1 && n <= |calls|
    ensures CountHolds(states, calls, group, n)
  {
    if n > 0 {
      CountIsGrants(states, calls, group, limit, n - 1);
      var call := calls[n - 1];
      if call.group == group {
        CountHoldsStep(states, calls, group, limit, n - 1);
      } else {
        OtherGroupsUnaffected(states[n - 1], call.group, call.limit, call.now, group);
      }
    }
  }

  /** Main result: any half-open minute holds at most 2L - 1 grants of a group with limit
      L >= 1, and none when L <= 0; the minute from the start of the current window holds
      at most L, and the stored count is their number. */
  lemma SlidingBound(states: seq<map<Group, RateWindow>>, calls: seq<Call>, group: Group, limit: int, lo: Time)
    requires IsRun(states, calls) && ConstantLimit(calls, group, limit)
    ensures var c := CountGrants(states, calls, group, |calls|, lo, lo + 60 * SECOND);
            if limit >= 1 then c <= 2 * limit - 1 else c == 0
    ensures limit >= 1 && group in states[|calls|] ==>
              var w := states[|calls|][group];
              CountGrants(states, calls, group, |calls|, w.start, w.start + 60 * SECOND) == w.count <= limit
  {
    if limit >= 1 {
      TallyHolds(states, calls, group, limit, |calls|, lo);
      CountIsGrants(states, calls, group, limit, |calls|);
    } else {
      NothingGranted(states, calls, group, limit, |calls|, lo, lo + WINDOW);
    }
  }

  // -------------------------------------------------------- the bound is exact

  lemma CountPrefix(states: seq<map<Group, RateWindow>>, states': seq<map<Group, RateWindow>>,
                    calls: seq<Call>, calls': seq<Call>, group: Group, n: nat, lo: Time, hi: Time)
    requires n <= |calls| < |states| && n <= |calls'| < |states'|
    requires forall i :: 0 <= i < n ==> states[i] == states'[i] && calls[i] == calls'[i]
    ensures CountGrants(states', calls', group, n, lo, hi) == CountGrants(states, calls, group, n, lo, hi)
  {}

  /** One more call, which is granted. */
  lemma OneMoreGrant(states: seq<map<Group, RateWindow>>, calls: seq<Call>, group: Group, limit: int, now: Time, lo: Time, hi: Time)
      returns (states': seq<map<Group, RateWindow>>, calls': seq<Call>)
    requires IsRun(states, calls) && ConstantLimit(calls, group, limit)
    requires forall i :: 0 <= i < |calls| ==> calls[i].now <= now
    requires Grants(states[|calls|], group, limit, now)
    ensures IsRun(states', calls') && ConstantLimit(calls', group, limit) && |calls'| == |calls| + 1
    ensures forall i :: 0 <= i < |calls'| ==> calls'[i].now <= now
    ensures states'[|calls'|] == After(states[|calls|], group, limit, now)
    ensures CountGrants(states', calls', group, |calls'|, lo, hi)
            == CountGrants(states, calls, group, |calls|, lo, hi) + if lo <= now < hi then 1 else 0
  {
    states', calls' := states + [After(states[|calls|], group, limit, now)], calls + [Call(group, limit, now)];
    CountPrefix(states, states', calls, calls', group, |calls|, lo, hi);
  }

  /** `k` more calls at one instant, all of them granted. */
  lemma {:induction false} Burst(states: seq<map<Group, RateWindow>>, calls: seq<Call>, group: Group, limit: int, now: Time, k: nat, lo: Time, hi: Time)
      returns (states': seq<map<Group, RateWindow>>, calls': seq<Call>)
    requires IsRun(states, calls) && ConstantLimit(calls, group, limit)
    requires forall i :: 0 <= i < |calls| ==> calls[i].now <= now
    requires WindowAt(states[|calls|], group, now).count + k <= limit
    ensures IsRun(states', calls') && ConstantLimit(calls', group, limit) && |calls'| == |calls| + k
    ensures forall i :: 0 <= i < |calls'| ==> calls'[i].now <= now
    ensures CountGrants(states', calls', group, |calls'|, lo, hi)
            == CountGrants(states, calls, group, |calls|, lo, hi) + if lo <= now < hi then k else 0
    ensures WindowAt(states'[|calls'|], group, now) == WindowAt(states[|calls|], group, now).(count := WindowAt(states[|calls|], group, now).count + k)
    ensures k > 0 ==> group in states'[|calls'|] && states'[|calls'|][group] == WindowAt(states'[|calls'|], group, now)
  {
    states', calls' := states, calls;
    if k > 0 {
      states', calls' := Burst(states, calls, group, limit, now, k - 1, lo, hi);
      StillOpen(states'[|calls'|], After(states'[|calls'|], group, limit, now), group, now);
      states', calls' := OneMoreGrant(states', calls', group, limit, now, lo, hi);
    }
  }

  /** A window that was current at `now` is current for the next call at `now`. */
  lemma StillOpen(before: map<Group, RateWindow>, after: map<Group, RateWindow>, group: Group, now: Time)
    ensures group in after && after[group].start == WindowAt(before, group, now).start ==> WindowAt(after, group, now) == after[group]
  {
    if group in before { WholeSeconds(now - before[group].start); }
  }

  /** For every limit there is a run with 2L - 1 grants in one half-open minute: one that
      starts a window, L - 1 at the end of it, and L at the start of the next. */
  lemma BoundIsReached(group: Group, limit: int) returns (states: seq<map<Group, RateWindow>>, calls: seq<Call>, lo: Time)
    requires limit >= 1
    ensures IsRun(states, calls) && ConstantLimit(calls, group, limit)
    ensures CountGrants(states, calls, group, |calls|, lo, lo + 60 * SECOND) == 2 * limit - 1
  {
    lo := 1;
    states, calls := [map[]], [];
    assert CountGrants(states, calls, group, 0, lo, lo + WINDOW) == 0;
    states, calls := Burst(states, calls, group, limit, 0, 1, lo, lo + WINDOW);
    assert states[|calls|][group] == RateWindow(1, 0);
    WholeSeconds(WINDOW - 1);
    states, calls := Burst(states, calls, group, limit, WINDOW - 1, limit - 1, lo, lo + WINDOW);
    assert states[|calls|][group] == RateWindow(limit, 0);
    WholeSeconds(WINDOW);
    states, calls := Burst(states, calls, group, limit, WINDOW, limit, lo, lo + WINDOW);
  }

  /** The minute from `lo` holds no more grants than the limit allows. */
  ghost predicate WithinLimit(states: seq<map<Group, RateWindow>>, calls: seq<Call>, group: Group, limit: int, lo: Time)
    requires |calls| < |states|
  {
    CountGrants(states, calls, group, |calls|, lo, lo + 60 * SECOND) <= if limit >= 0 then limit else 0
  }

  /** Exactly when the limit holds for every minute, and not only for every window: it is
      one or less. */
  lemma LimitPerMinuteIff(group: Group, limit: int)
    ensures (forall states, calls, lo :: IsRun(states, calls) && ConstantLimit(calls, group, limit) ==> WithinLimit(states, calls, group, limit, lo))
       <==> limit <= 1
  {
    if limit <= 1 {
      forall states, calls, lo | IsRun(states, calls) && ConstantLimit(calls, group, limit)
        ensures WithinLimit(states, calls, group, limit, lo)
      {
        SlidingBound(states, calls, group, limit, lo);
      }
    } else {
      var states, calls, lo := BoundIsReached(group, limit);
      assert !WithinLimit(states, calls, group, limit, lo);
    }
  }
}
