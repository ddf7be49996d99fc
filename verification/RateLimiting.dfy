/** The fixed-window request limiter (internal/policy/limiter.go). */
module RateLimiting {
  import opened UsageWindows

  datatype Bucket = Bucket(windowStart: int, count: int)

  const NO_BUCKET := Bucket(0, 0)

  /** The bucket a call at `now` is counted in: a new window after a minute, or if the clock went back. */
  function Current(b: Bucket, now: int): Bucket {
    if b.windowStart == 0 || now - b.windowStart >= MINUTE || now < b.windowStart then Bucket(now, 0) else b
  }

  /** The bucket a call at `now` leaves behind. */
  function After(b: Bucket, rpm: int, now: int): Bucket {
    var cur := Current(b, now);
    if cur.count >= rpm then cur else cur.(count := cur.count + 1)
  }

  predicate Admits(b: Bucket, rpm: int, now: int) { Current(b, now).count < rpm }

  class RateLimiter {
    var buckets: map<string, Bucket>

    constructor ()
      ensures buckets == map[]
    {
      buckets := map[];
    }

    function BucketOf(id: string): Bucket
      reads this
    {
      if id in buckets then buckets[id] else NO_BUCKET
    }

    /** `Allow`: no limit for rpm <= 0; otherwise one id's bucket is replaced and no other is touched. */
    method Allow(id: string, rpm: int, now: int) returns (allowed: bool)
      modifies this
      ensures allowed <==> rpm <= 0 || Admits(old(BucketOf(id)), rpm, now)
      ensures buckets == if rpm <= 0 then old(buckets) else old(buckets)[id := After(old(BucketOf(id)), rpm, now)]
    {
      if rpm <= 0 { return true; }
      var bucket := if id in buckets then buckets[id] else NO_BUCKET;
      if bucket.windowStart == 0 || now - bucket.windowStart >= MINUTE || now < bucket.windowStart {
        bucket := Bucket(now, 0);
      }
      if bucket.count >= rpm {
        buckets := buckets[id := bucket];
        return false;
      }
      bucket := bucket.(count := bucket.count + 1);
      buckets := buckets[id := bucket];
      return true;
    }

    method Reset(id: string)
      modifies this
      ensures buckets == old(buckets) - {id}
    {
      buckets := buckets - {id};
    }
  }

  // ---------- runs over all ids ----------

  datatype Call = Call(id: string, at: int)

  /** The buckets after a run of calls, each id under its own fixed limit. */
  function Buckets(calls: seq<Call>, limits: map<string, int>): map<string, Bucket> {
    if calls == [] then map[]
    else
      var before, c := Buckets(calls[..|calls| - 1], limits), calls[|calls| - 1];
      if LimitOf(limits, c.id) <= 0 then before
      else before[c.id := After(Lookup(before, c.id), LimitOf(limits, c.id), c.at)]
  }

  function Lookup(buckets: map<string, Bucket>, id: string): Bucket {
    if id in buckets then buckets[id] else NO_BUCKET
  }

  function LimitOf(limits: map<string, int>, id: string): int { if id in limits then limits[id] else 0 }

  /** Whether the last call of a run was admitted. */
  predicate Admitted(calls: seq<Call>, limits: map<string, int>)
    requires calls != []
  {
    var before, c := Buckets(calls[..|calls| - 1], limits), calls[|calls| - 1];
    LimitOf(limits, c.id) <= 0 || Admits(Lookup(before, c.id), LimitOf(limits, c.id), c.at)
  }

  /** How many calls of `id` in [from, to) were admitted. */
  function AdmittedIn(calls: seq<Call>, limits: map<string, int>, id: string, from: int, to: int): nat {
    if calls == [] then 0
    else
      var c := calls[|calls| - 1];
      AdmittedIn(calls[..|calls| - 1], limits, id, from, to)
      + (if c.id == id && from <= c.at < to && Admitted(calls, limits) then 1 else 0)
  }

  /** Clock readings in lock order never go back and lie after Go's zero instant. */
  ghost predicate Ordered(calls: seq<Call>) {
    && (forall i :: 0 <= i < |calls| ==> 0 < calls[i].at)
    && (forall i, j :: 0 <= i < j < |calls| ==> calls[i].at <= calls[j].at)
  }

  /** The bucket of an id counts the admissions since its window opened, the first at its opening. */
  lemma {:induction false} BucketCounts(calls: seq<Call>, limits: map<string, int>, id: string)
    requires Ordered(calls) && LimitOf(limits, id) > 0
    ensures var b := Lookup(Buckets(calls, limits), id);
            && (b == NO_BUCKET || (0 < b.windowStart && 1 <= b.count <= LimitOf(limits, id)))
            && (b != NO_BUCKET ==> exists i :: 0 <= i < |calls| && calls[i].at == b.windowStart)
  {
    if calls != [] {
      var front := calls[..|calls| - 1];
      BucketCounts(front, limits, id);
      var b := Lookup(Buckets(front, limits), id);
      if b != NO_BUCKET {
        var i :| 0 <= i < |front| && front[i].at == b.windowStart;
        assert calls[i].at == b.windowStart;
      }
      assert calls[|calls| - 1].at > 0;
    }
  }

  /**
   What one call makes of a bucket: no window, one of a minute or more ago, or one from a clock that has gone back since
   gives a new window with this call in it; otherwise the call is counted until the limit is reached, and then refused.
   */
  lemma {:induction false} CallIsCounted(b: Bucket, rpm: int, now: int)
    requires rpm > 0
    ensures var opens := b.windowStart == 0 || now >= b.windowStart + 60 * SECOND || now < b.windowStart;
            && (opens ==> Admits(b, rpm, now) && After(b, rpm, now) == Bucket(now, 1))
            && (!opens && b.count < rpm ==> Admits(b, rpm, now) && After(b, rpm, now) == Bucket(b.windowStart, b.count + 1))
            && (!opens && b.count >= rpm ==> !Admits(b, rpm, now) && After(b, rpm, now) == b)
  {
  }

  /** A bound on the admissions in [from, ...) once the current window of the id opened at `start`. */
  function Bound(rpm: nat, b: Bucket, from: int): int {
    if b == NO_BUCKET then 0
    else if b.windowStart < from then b.count - 1
    else rpm * ((b.windowStart - from) / MINUTE) + rpm - 1 + b.count
  }

  lemma {:induction false} NoneBefore(calls: seq<Call>, limits: map<string, int>, id: string, from: int, to: int)
    requires forall i :: 0 <= i < |calls| ==> calls[i].at < from
    ensures AdmittedIn(calls, limits, id, from, to) == 0
  {
    if calls != [] { NoneBefore(calls[..|calls| - 1], limits, id, from, to); }
  }

  lemma {:induction false} Times(a: nat, b: nat, c: nat)
    requires b <= c
    ensures a * b <= a * c && a * (b + 1) == a * b + a && 0 <= a * b
  {
  }

  lemma {:induction false} AdmissionsSoFar(calls: seq<Call>, limits: map<string, int>, id: string, from: int, to: int)
    requires Ordered(calls) && LimitOf(limits, id) > 0
    requires forall i :: 0 <= i < |calls| ==> calls[i].at < to
    ensures AdmittedIn(calls, limits, id, from, to) <= Bound(LimitOf(limits, id), Lookup(Buckets(calls, limits), id), from)
  {
    if calls != [] {
      var front, c := calls[..|calls| - 1], calls[|calls| - 1];
      AdmissionsSoFar(front, limits, id, from, to);
      BucketCounts(front, limits, id);
      if c.id == id {
        if c.at < from { NoneBefore(calls, limits, id, from, to); BucketCounts(calls, limits, id); }
        OneMoreCall(LimitOf(limits, id), Lookup(Buckets(front, limits), id), c.at, from);
      }
    }
  }

  /** One more call raises the bound by as much as it admits, if it is made inside the interval. */
  lemma {:induction false} OneMoreCall(rpm: nat, b: Bucket, at: int, from: int)
    requires 0 < rpm && 0 < at && (b == NO_BUCKET || (0 < b.windowStart && 1 <= b.count <= rpm)) && b.windowStart <= at
    ensures from <= at ==>
              Bound(rpm, b, from) + (if Admits(b, rpm, at) then 1 else 0) <= Bound(rpm, After(b, rpm, at), from)
    ensures at < from ==> Bound(rpm, After(b, rpm, at), from) >= 0
  {
    if from <= at {
      var k' := (at - from) / MINUTE;
      Times(rpm, 0, k');
      if b != NO_BUCKET && at - b.windowStart >= MINUTE && from <= b.windowStart {
        var k := (b.windowStart - from) / MINUTE;
        assert k + 1 <= k';
        Times(rpm, k + 1, k');
        Times(rpm, k, k + 1);
      }
    }
  }

  /** Calls at or after the end of the interval add nothing. */
  lemma {:induction false} LateCalls(calls: seq<Call>, limits: map<string, int>, id: string, from: int, to: int) returns (n: nat)
    requires Ordered(calls)
    ensures n <= |calls| && AdmittedIn(calls, limits, id, from, to) == AdmittedIn(calls[..n], limits, id, from, to)
    ensures forall i :: 0 <= i < n ==> calls[i].at < to
  {
    if calls == [] {
      n := 0;
    } else if calls[|calls| - 1].at < to {
      n := |calls|;
      assert calls[..n] == calls;
    } else {
      var front := calls[..|calls| - 1];
      n := LateCalls(front, limits, id, from, to);
      assert calls[..n] == front[..n];
    }
  }

  /**
   However many calls of however many ids are made, any half-open interval of `minutes` minutes holds at
   most (minutes + 1) * rpm - 1 admissions of an id with limit rpm > 0.
   */
  lemma {:induction false} RpmBound(calls: seq<Call>, limits: map<string, int>, id: string, from: int, minutes: nat)
    requires Ordered(calls) && LimitOf(limits, id) > 0
    ensures AdmittedIn(calls, limits, id, from, from + minutes * MINUTE) <= (minutes + 1) * LimitOf(limits, id) - 1
  {
    hide Buckets, AdmittedIn;
    var rpm, to := LimitOf(limits, id), from + minutes * MINUTE;
    var n := LateCalls(calls, limits, id, from, to);
    var early := calls[..n];
    AdmissionsSoFar(early, limits, id, from, to);
    BucketCounts(early, limits, id);
    var b := Lookup(Buckets(early, limits), id);
    Times(rpm, minutes, minutes);
    if b != NO_BUCKET && from <= b.windowStart {
      var i :| 0 <= i < |early| && early[i].at == b.windowStart;
      var k := (b.windowStart - from) / MINUTE;
      assert k + 1 <= minutes;
      Times(rpm, k + 1, minutes);
      Times(rpm, k, k + 1);
    }
  }

  /** A denied call of an id with a limit comes after `rpm` admissions of that id in the last minute. */
  lemma {:induction false} DenialFollowsAdmissions(calls: seq<Call>, limits: map<string, int>)
    requires Ordered(calls) && calls != [] && !Admitted(calls, limits)
    ensures var c := calls[|calls| - 1];
            AdmittedIn(calls, limits, c.id, c.at - MINUTE + 1, c.at + 1) >= LimitOf(limits, c.id)
  {
    var front, c := calls[..|calls| - 1], calls[|calls| - 1];
    BucketCounts(front, limits, c.id);
    var b := Lookup(Buckets(front, limits), c.id);
    SinceWindowStart(front, limits, c.id, c.at + 1);
    WiderInterval(front, limits, c.id, b.windowStart, c.at - MINUTE + 1, c.at + 1);
  }

  lemma {:induction false} SinceWindowStart(calls: seq<Call>, limits: map<string, int>, id: string, to: int)
    requires Ordered(calls) && LimitOf(limits, id) > 0
    requires forall i :: 0 <= i < |calls| ==> calls[i].at < to
    ensures var b := Lookup(Buckets(calls, limits), id);
            b != NO_BUCKET ==> AdmittedIn(calls, limits, id, b.windowStart, to) >= b.count
  {
    if calls != [] {
      SinceWindowStart(calls[..|calls| - 1], limits, id, to);
      BucketCounts(calls[..|calls| - 1], limits, id);
    }
  }

  lemma {:induction false} WiderInterval(calls: seq<Call>, limits: map<string, int>, id: string, from: int, wider: int, to: int)
    requires wider <= from
    ensures AdmittedIn(calls, limits, id, wider, to) >= AdmittedIn(calls, limits, id, from, to)
  {
    if calls != [] { WiderInterval(calls[..|calls| - 1], limits, id, from, wider, to); }
  }

  // ---------- the bound is reached ----------

  /** One call, `rpm - 1` calls just before its minute is over, and `rpm` calls at each of the n minutes that follow. */
  function Burst(rpm: nat, start: int, n: nat): seq<Call>
    requires rpm > 0
  {
    if n == 0 then [Call("k", start)] + Repeat(rpm - 1, start + MINUTE - 1)
    else Burst(rpm, start, n - 1) + Repeat(rpm, start + n * MINUTE)
  }

  function Repeat(n: nat, at: int): seq<Call> {
    if n == 0 then [] else Repeat(n - 1, at) + [Call("k", at)]
  }

  lemma {:induction false} OneMore(calls: seq<Call>, c: Call, limits: map<string, int>, from: int, to: int)
    requires LimitOf(limits, c.id) > 0 && from <= c.at < to
    ensures var b := Lookup(Buckets(calls, limits), c.id);
            && Lookup(Buckets(calls + [c], limits), c.id) == After(b, LimitOf(limits, c.id), c.at)
            && AdmittedIn(calls + [c], limits, c.id, from, to)
               == AdmittedIn(calls, limits, c.id, from, to) + (if Admits(b, LimitOf(limits, c.id), c.at) then 1 else 0)
  {
  }

  /** Calls that fit in the current window are all admitted. */
  lemma {:induction false} RepeatIsAdmitted(calls: seq<Call>, limits: map<string, int>, n: nat, at: int, from: int, to: int)
    requires from <= at < to
    requires var cur := Current(Lookup(Buckets(calls, limits), "k"), at);
             0 < cur.windowStart <= at < cur.windowStart + MINUTE && 0 <= cur.count && cur.count + n <= LimitOf(limits, "k")
    ensures var cur, more := Current(Lookup(Buckets(calls, limits), "k"), at), calls + Repeat(n, at);
            && AdmittedIn(more, limits, "k", from, to) == AdmittedIn(calls, limits, "k", from, to) + n
            && Lookup(Buckets(more, limits), "k") == if n == 0 then Lookup(Buckets(calls, limits), "k")
                                                     else cur.(count := cur.count + n)
  {
    hide Buckets, AdmittedIn, Lookup, LimitOf;
    if n == 0 {
      assert calls + Repeat(0, at) == calls;
    } else {
      var fewer := calls + Repeat(n - 1, at);
      RepeatIsAdmitted(calls, limits, n - 1, at, from, to);
      OneMore(fewer, Call("k", at), limits, from, to);
      assert calls + Repeat(n, at) == fewer + [Call("k", at)];
      AfterInWindow(Lookup(Buckets(calls, limits), "k"), Lookup(Buckets(fewer, limits), "k"), n - 1, LimitOf(limits, "k"), at);
    }
  }

  lemma {:induction false} AfterInWindow(b: Bucket, later: Bucket, n: nat, rpm: int, at: int)
    requires var cur := Current(b, at); 0 < cur.windowStart <= at < cur.windowStart + MINUTE && cur.count + n < rpm
    requires later == if n == 0 then b else Current(b, at).(count := Current(b, at).count + n)
    ensures Admits(later, rpm, at) && After(later, rpm, at) == Current(b, at).(count := Current(b, at).count + n + 1)
  {
  }

  lemma {:induction false} BurstOpens(rpm: nat, start: int, to: int)
    requires rpm > 0 && start > 0 && start + MINUTE - 1 < to
    ensures var limits, calls := map["k" := rpm], Burst(rpm, start, 0);
            && AdmittedIn(calls, limits, "k", start + MINUTE - 1, to) == rpm - 1
            && Lookup(Buckets(calls, limits), "k") == Bucket(start, rpm)
  {
    var limits, from, first := map["k" := rpm], start + MINUTE - 1, [Call("k", start)];
    assert first[..0] == [];
    assert Lookup(Buckets(first, limits), "k") == Bucket(start, 1) && AdmittedIn(first, limits, "k", from, to) == 0;
    hide Buckets, AdmittedIn;
    RepeatIsAdmitted(first, limits, rpm - 1, from, from, to);
  }

  /** A full bucket whose minute is over admits another `rpm` calls. */
  lemma {:induction false} NextMinute(calls: seq<Call>, rpm: nat, at: int, from: int, to: int)
    requires rpm > 0 && MINUTE < at && from <= at < to
    requires Lookup(Buckets(calls, map["k" := rpm]), "k") == Bucket(at - MINUTE, rpm)
    ensures var limits, more := map["k" := rpm], calls + Repeat(rpm, at);
            && AdmittedIn(more, limits, "k", from, to) == AdmittedIn(calls, limits, "k", from, to) + rpm
            && Lookup(Buckets(more, limits), "k") == Bucket(at, rpm)
  {
    hide Buckets, AdmittedIn;
    RepeatIsAdmitted(calls, map["k" := rpm], rpm, at, from, to);
  }

  lemma {:induction false} BurstIsAdmitted(rpm: nat, start: int, n: nat, to: int)
    requires rpm > 0 && start > 0 && start + MINUTE - 1 < to && start + n * MINUTE < to
    ensures var limits, calls := map["k" := rpm], Burst(rpm, start, n);
            && AdmittedIn(calls, limits, "k", start + MINUTE - 1, to) == (n + 1) * rpm - 1
            && Lookup(Buckets(calls, limits), "k") == Bucket(start + n * MINUTE, rpm)
  {
    hide Buckets, AdmittedIn, Burst;
    if n == 0 {
      BurstOpens(rpm, start, to);
    } else {
      Times(rpm, n, n);
      BurstIsAdmitted(rpm, start, n - 1, to);
      UnfoldBurst(rpm, start, n);
      NextMinute(Burst(rpm, start, n - 1), rpm, start + n * MINUTE, start + MINUTE - 1, to);
    }
  }

  lemma {:induction false} UnfoldBurst(rpm: nat, start: int, n: nat)
    requires rpm > 0 && n > 0
    ensures Burst(rpm, start, n) == Burst(rpm, start, n - 1) + Repeat(rpm, start + n * MINUTE)
  {
  }

  lemma {:induction false} RepeatIsOrdered(calls: seq<Call>, n: nat, at: int)
    requires Ordered(calls) && 0 < at && forall i :: 0 <= i < |calls| ==> calls[i].at <= at
    ensures Ordered(calls + Repeat(n, at)) && forall i :: 0 <= i < |calls + Repeat(n, at)| ==> (calls + Repeat(n, at))[i].at <= at
  {
    if n > 0 {
      RepeatIsOrdered(calls, n - 1, at);
      assert calls + Repeat(n, at) == (calls + Repeat(n - 1, at)) + [Call("k", at)];
    } else {
      assert calls + Repeat(0, at) == calls;
    }
  }

  lemma {:induction false} BurstIsOrdered(rpm: nat, start: int, n: nat)
    requires rpm > 0 && start > 0
    ensures var calls := Burst(rpm, start, n);
            Ordered(calls) && forall i :: 0 <= i < |calls| ==> calls[i].at <= start + (n + 1) * MINUTE - 1
  {
    if n == 0 {
      RepeatIsOrdered([Call("k", start)], rpm - 1, start + MINUTE - 1);
    } else {
      BurstIsOrdered(rpm, start, n - 1);
      assert n * MINUTE <= (n + 1) * MINUTE - 1;
      RepeatIsOrdered(Burst(rpm, start, n - 1), rpm, start + n * MINUTE);
    }
  }

  /** For every limit and every n >= 1, readings that do not go back reach the bound of `RpmBound` in n minutes exactly. */
  lemma {:induction false} RpmBoundIsTight(rpm: nat, start: int, minutes: nat)
    requires rpm > 0 && start > 0 && minutes >= 1
    ensures var calls, from := Burst(rpm, start, minutes), start + MINUTE - 1;
            && Ordered(calls)
            && AdmittedIn(calls, map["k" := rpm], "k", from, from + minutes * MINUTE) == (minutes + 1) * rpm - 1
  {
    BurstIsOrdered(rpm, start, minutes);
    BurstIsAdmitted(rpm, start, minutes, start + MINUTE - 1 + minutes * MINUTE);
  }
}
