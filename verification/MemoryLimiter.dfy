/** The in-process rate limiter (app/ratelimit/limiter.py:43-78): one (window start, count) bucket per
    key, the window anchored at the key's own first request. Times are real seconds. */
module MemoryLimiter {
  import opened Common

  datatype Bucket = Bucket(start: real, count: nat)

  /** One call of `check`, with the clock reading it took. */
  datatype Call = Call(key: string, limit: int, window: real, now: real)

  datatype Decision = Decision(allowed: bool, remaining: int)

  /** The window the call falls in: the stored one, or a new one anchored at the call. */
  function Current(b: Option<Bucket>, c: Call): Bucket {
    match b
    case None => Bucket(c.now, 0)
    case Some(kept) => if c.now - kept.start >= c.window then Bucket(c.now, 0) else kept
  }

  function Next(b: Option<Bucket>, c: Call): Bucket {
    var w := Current(b, c);
    if w.count >= c.limit then w else Bucket(w.start, w.count + 1)
  }

  function Decide(b: Option<Bucket>, c: Call): Decision {
    var w := Current(b, c);
    if w.count >= c.limit then Decision(false, 0) else Decision(true, c.limit - w.count - 1)
  }

  /** A key's bucket and decisions as folds over that key's own calls. */
  function BucketAfter(calls: seq<Call>): Option<Bucket>
    decreases |calls|
  {
    if calls == [] then None else Some(Next(BucketAfter(calls[..|calls| - 1]), calls[|calls| - 1]))
  }

  function DecisionAt(calls: seq<Call>, i: nat): Decision
    requires i < |calls|
  {
    Decide(BucketAfter(calls[..i]), calls[i])
  }

  /** The calls made for one key, in order. */
  function ForKey(calls: seq<Call>, key: string): seq<Call>
    decreases |calls|
  {
    if calls == [] then []
    else ForKey(calls[..|calls| - 1], key) + (if calls[|calls| - 1].key == key then [calls[|calls| - 1]] else [])
  }

  ghost predicate DecisionsFit(calls: seq<Call>, decisions: seq<Decision>) {
    && |decisions| == |calls|
    && forall i :: 0 <= i < |calls| ==> decisions[i] == Decide(BucketAfter(ForKey(calls[..i], calls[i].key)), calls[i])
  }

  lemma DecisionsNext(calls: seq<Call>, c: Call, decisions: seq<Decision>, d: Decision)
    requires DecisionsFit(calls, decisions) && d == Decide(BucketAfter(ForKey(calls, c.key)), c)
    ensures DecisionsFit(calls + [c], decisions + [d])
  {
    forall i | 0 <= i < |calls + [c]|
      ensures var all := calls + [c];
        (decisions + [d])[i] == Decide(BucketAfter(ForKey(all[..i], all[i].key)), all[i])
    {
      assert (calls + [c])[..i] == calls[..i];
      if i == |calls| {
        assert calls[..i] == calls;
      }
    }
  }

  /** One more call extends the history of its own key only. */
  lemma ForKeyNext(calls: seq<Call>, c: Call, key: string)
    ensures ForKey(calls + [c], key) == if key == c.key then ForKey(calls, key) + [c] else ForKey(calls, key)
    ensures BucketAfter(ForKey(calls, key) + [c]) == Some(Next(BucketAfter(ForKey(calls, key)), c))
  {
    assert (calls + [c])[..|calls|] == calls;
    assert (ForKey(calls, key) + [c])[..|ForKey(calls, key)|] == ForKey(calls, key);
  }

  class InMemoryRateLimiter {
    var buckets: map<string, Bucket>
    ghost var log: seq<Call>                 // every call so far, all keys interleaved
    ghost var decisions: seq<Decision>

    /** Each bucket is the fold over its own key's calls, and each decision the one those calls alone give. */
    ghost predicate Valid()
      reads this
    {
      (forall key :: Stored(key) == BucketAfter(ForKey(log, key))) && DecisionsFit(log, decisions)
    }

    ghost function Stored(key: string): Option<Bucket>
      reads this
    {
      if key in buckets then Some(buckets[key]) else None
    }

    constructor ()
      ensures Valid() && log == [] && decisions == []
    {
      buckets, log, decisions := map[], [], [];
    }

    method Check(key: string, limit: int, window: real, now: real) returns (allowed: bool, remaining: int)
      requires Valid()
      modifies this
      ensures Valid() && log == old(log) + [Call(key, limit, window, now)]
      ensures decisions == old(decisions) + [Decision(allowed, remaining)]
      ensures forall k :: k != key ==>
        (k in buckets <==> k in old(buckets)) && (k in buckets ==> buckets[k] == old(buckets)[k])
    {
      ghost var c := Call(key, limit, window, now);
      ghost var was := Stored(key);
      ghost var before := log;
      var bucketStart, count := now, 0;
      if key in buckets {
        bucketStart, count := buckets[key].start, buckets[key].count;
      }
      if now - bucketStart >= window {
        bucketStart := now;
        count := 0;
      }
      if count >= limit {
        buckets := buckets[key := Bucket(bucketStart, count)];
        allowed, remaining := false, 0;
      } else {
        count := count + 1;
        buckets := buckets[key := Bucket(bucketStart, count)];
        allowed, remaining := true, limit - count;
      }
      assert buckets[key] == Next(was, c) && Decision(allowed, remaining) == Decide(was, c);
      log, decisions := log + [c], decisions + [Decision(allowed, remaining)];
      forall k ensures Stored(k) == BucketAfter(ForKey(log, k)) {
        ForKeyNext(before, c, k);
      }
      assert DecisionsFit(log, decisions) by {
        DecisionsNext(before, c, old(decisions), Decision(allowed, remaining));
      }
    }

    /** Over everything the object has ever decided, all keys interleaved: no half-open interval of window
        length saw more than 2 * limit - 1 accepted calls of a key. */
    lemma BoundPerKey(key: string, limit: nat, window: real, from: real)
      requires Valid() && SteadyFor(log, key, limit, window)
      ensures |log| == |decisions| && AcceptedOf(log, decisions, key, from, from + window) <= 2 * limit - 1
    {
      HistoryCountsTheKey(log, decisions, key, from, from + window);
      KeyIsSteady(log, key, limit, window);
      SlidingBound(ForKey(log, key), limit, window, from);
    }
  }

  // ---------------------------------------------------------------- the bound for the limiter object

  /** How many calls of one key were accepted in [from, to), read off the interleaved history. */
  function AcceptedOf(calls: seq<Call>, decisions: seq<Decision>, key: string, from: real, to: real): nat
    requires |calls| == |decisions|
    decreases |calls|
  {
    if calls == [] then 0
    else
      var n := |calls| - 1;
      AcceptedOf(calls[..n], decisions[..n], key, from, to)
      + (if calls[n].key == key && decisions[n].allowed && from <= calls[n].now < to then 1 else 0)
  }

  lemma {:induction false} HistoryCountsTheKey(calls: seq<Call>, decisions: seq<Decision>, key: string, from: real,
                                               to: real)
    requires DecisionsFit(calls, decisions)
    ensures AcceptedOf(calls, decisions, key, from, to) == AcceptedIn(ForKey(calls, key), from, to)
    decreases |calls|
  {
    if calls != [] {
      var n := |calls| - 1;
      FitShortens(calls, decisions);
      HistoryCountsTheKey(calls[..n], decisions[..n], key, from, to);
      if calls[n].key == key {
        AcceptedNext(ForKey(calls[..n], key), calls[n], from, to);
      } else {
        assert ForKey(calls[..n], key) + [] == ForKey(calls[..n], key);
      }
    }
  }

  lemma FitShortens(calls: seq<Call>, decisions: seq<Decision>)
    requires DecisionsFit(calls, decisions) && calls != []
    ensures DecisionsFit(calls[..|calls| - 1], decisions[..|calls| - 1])
  {
    var n := |calls| - 1;
    forall i | 0 <= i < n
      ensures decisions[..n][i] == Decide(BucketAfter(ForKey(calls[..n][..i], calls[..n][i].key)), calls[..n][i])
    {
      assert calls[..n][..i] == calls[..i];
    }
  }

  /** The clock never steps back over the whole history, and the key is always called with one limit and window. */
  ghost predicate SteadyFor(calls: seq<Call>, key: string, limit: nat, window: real) {
    && limit >= 1 && window > 0.0
    && (forall i :: 0 <= i < |calls| && calls[i].key == key ==> calls[i].limit == limit && calls[i].window == window)
    && (forall i, j :: 0 <= i < j < |calls| ==> calls[i].now <= calls[j].now)
  }

  lemma {:induction false} ForKeyMembers(calls: seq<Call>, key: string)
    ensures forall c :: c in ForKey(calls, key) ==> c in calls && c.key == key
    decreases |calls|
  {
    if calls != [] {
      ForKeyMembers(calls[..|calls| - 1], key);
    }
  }

  lemma {:induction false} KeyIsSteady(calls: seq<Call>, key: string, limit: nat, window: real)
    requires SteadyFor(calls, key, limit, window)
    ensures Steady(ForKey(calls, key), limit, window)
    decreases |calls|
  {
    if calls != [] {
      var n := |calls| - 1;
      KeyIsSteady(calls[..n], key, limit, window);
      ForKeyMembers(calls[..n], key);
      var mine := ForKey(calls[..n], key);
      forall i | 0 <= i < |mine| ensures mine[i].now <= calls[n].now {
        assert mine[i] in calls[..n];
      }
    }
  }

  // ---------------------------------------------------------------- keys do not influence each other

  /** Position of call i among its own key's calls. */
  function Rank(calls: seq<Call>, i: nat): nat
    requires i < |calls|
  {
    |ForKey(calls[..i], calls[i].key)|
  }

  lemma {:induction false} ForKeyPrefix(calls: seq<Call>, key: string, i: nat)
    requires i <= |calls|
    ensures ForKey(calls[..i], key) <= ForKey(calls, key)
    decreases |calls| - i
  {
    if i < |calls| {
      ForKeyPrefix(calls, key, i + 1);
      assert calls[..i + 1][..i] == calls[..i];
    } else {
      assert calls[..i] == calls;
    }
  }

  /** Deleting every other key's calls changes none of this key's decisions. */
  lemma OtherKeysDoNotMatter(calls: seq<Call>, i: nat)
    requires i < |calls|
    ensures var mine := ForKey(calls, calls[i].key);
      && Rank(calls, i) < |mine| && mine[Rank(calls, i)] == calls[i]
      && DecisionAt(mine, Rank(calls, i)) == Decide(BucketAfter(ForKey(calls[..i], calls[i].key)), calls[i])
  {
    var key := calls[i].key;
    ForKeyPrefix(calls, key, i + 1);
    assert calls[..i + 1][..i] == calls[..i];
    var mine, before := ForKey(calls, key), ForKey(calls[..i], key);
    assert ForKey(calls[..i + 1], key) == before + [calls[i]];
    assert mine[..|before|] == before;
  }

  // ---------------------------------------------------------------- the sliding bound

  /** A key's calls with a fixed limit and window and a clock that never steps back. */
  ghost predicate Steady(calls: seq<Call>, limit: nat, window: real) {
    && limit >= 1 && window > 0.0
    && (forall i :: 0 <= i < |calls| ==> calls[i].limit == limit && calls[i].window == window)
    && (forall i, j :: 0 <= i < j < |calls| ==> calls[i].now <= calls[j].now)
  }

  /** How many calls were accepted at a time in [from, to). */
  function AcceptedIn(calls: seq<Call>, from: real, to: real): nat
    decreases |calls|
  {
    if calls == [] then 0
    else
      var n := |calls| - 1;
      AcceptedIn(calls[..n], from, to)
      + (if DecisionAt(calls, n).allowed && from <= calls[n].now < to then 1 else 0)
  }

  /** Accepted calls in the half-open interval of the given length that begins at `from`. */
  function AcceptedDuring(calls: seq<Call>, from: real, length: real): nat {
    AcceptedIn(calls, from, from + length)
  }

  /** What a history guarantees, in terms of the window it ends in. */
  ghost predicate Bounded(calls: seq<Call>, limit: nat, window: real) {
    calls != [] ==>
      && var b, last := BucketAfter(calls).value, calls[|calls| - 1].now;
         && 1 <= b.count <= limit
         && b.start <= last < b.start + window
         && (forall from, to {:trigger AcceptedIn(calls, from, to)} :: from > last ==> AcceptedIn(calls, from, to) == 0)
         // the current window holds b.count accepted calls, its anchor among them
         && (forall from, to {:trigger AcceptedIn(calls, from, to)} :: from >= b.start ==>
           AcceptedIn(calls, from, to) <= b.count)
         && (forall from, to {:trigger AcceptedIn(calls, from, to)} :: from > b.start ==>
           AcceptedIn(calls, from, to) <= b.count - 1)
         // an interval that reaches the current window has missed the anchor of the one before
         && (forall from {:trigger AcceptedIn(calls, from, b.start)} ::
               from > b.start - window ==> AcceptedIn(calls, from, b.start) <= limit - 1)
         && (forall from :: AcceptedDuring(calls, from, window) <= 2 * limit - 1)
  }

  lemma {:induction false} AcceptedSplits(calls: seq<Call>, from: real, mid: real, to: real)
    requires from <= mid <= to
    ensures AcceptedIn(calls, from, to) == AcceptedIn(calls, from, mid) + AcceptedIn(calls, mid, to)
    decreases |calls|
  {
    if calls != [] { AcceptedSplits(calls[..|calls| - 1], from, mid, to); }
  }

  lemma AcceptedNext(calls: seq<Call>, c: Call, from: real, to: real)
    ensures AcceptedIn(calls + [c], from, to) == AcceptedIn(calls, from, to)
      + (if Decide(BucketAfter(calls), c).allowed && from <= c.now < to then 1 else 0)
  {
    assert (calls + [c])[..|calls|] == calls;
  }

  lemma StepStaysBounded(calls: seq<Call>, c: Call, limit: nat, window: real)
    requires Steady(calls + [c], limit, window) && Bounded(calls, limit, window)
    ensures Bounded(calls + [c], limit, window)
  {
    var all := calls + [c];
    assert all[..|calls|] == calls && all[|calls|] == c;
    assert calls != [] ==> all[|calls| - 1] == calls[|calls| - 1];
    var b := BucketAfter(all).value;
    forall from, to ensures AcceptedIn(all, from, to) == AcceptedIn(calls, from, to)
        + (if Decide(BucketAfter(calls), c).allowed && from <= c.now < to then 1 else 0) {
      AcceptedNext(calls, c, from, to);
    }
    if calls != [] {
      forall from | from > b.start - window ensures AcceptedIn(all, from, b.start) <= limit - 1 {
        assert AcceptedIn(all, from, b.start) == AcceptedIn(calls, from, b.start);
      }
      forall from ensures AcceptedDuring(all, from, window) <= 2 * limit - 1 {
        assert AcceptedDuring(calls, from, window) <= 2 * limit - 1;
        if from <= c.now < from + window && from <= b.start {
          AcceptedSplits(all, from, b.start, from + window);
        }
      }
    }
  }

  lemma {:induction false} HistoryIsBounded(calls: seq<Call>, limit: nat, window: real)
    requires Steady(calls, limit, window)
    ensures Bounded(calls, limit, window)
    decreases |calls|
  {
    if calls != [] {
      var n := |calls| - 1;
      assert calls == calls[..n] + [calls[n]];
      HistoryIsBounded(calls[..n], limit, window);
      StepStaysBounded(calls[..n], calls[n], limit, window);
    }
  }

  /** No half-open interval as long as the window sees more than 2 * limit - 1 accepted calls of a key,
      wherever it begins. */
  lemma SlidingBound(calls: seq<Call>, limit: nat, window: real, from: real)
    requires Steady(calls, limit, window)
    ensures AcceptedDuring(calls, from, window) <= 2 * limit - 1
  {
    HistoryIsBounded(calls, limit, window);
  }

  lemma CurrentWindow(calls: seq<Call>, limit: nat, window: real)
    requires Steady(calls, limit, window) && calls != []
    ensures var b := BucketAfter(calls).value; var last := calls[|calls| - 1].now;
      b.start <= last < b.start + window && AcceptedDuring(calls, b.start, window) <= limit
  {
    HistoryIsBounded(calls, limit, window);
  }

  /** A call after a window has closed does not count in it; until then the bucket keeps its anchor. */
  lemma WindowClosesOnce(calls: seq<Call>, c: Call, limit: nat, window: real, anchor: real)
    requires Steady(calls + [c], limit, window) && calls != []
    requires BucketAfter(calls).value.start == anchor || BucketAfter(calls).value.start >= anchor + window
    requires AcceptedDuring(calls, anchor, window) <= limit
    ensures AcceptedDuring(calls + [c], anchor, window) <= limit
    ensures BucketAfter(calls + [c]).value.start == anchor || BucketAfter(calls + [c]).value.start >= anchor + window
  {
    var all := calls + [c];
    assert all[..|calls|] == calls && all[|calls|] == c && all[|calls| - 1] == calls[|calls| - 1];
    CurrentWindow(calls, limit, window);
    CurrentWindow(all, limit, window);
    AcceptedNext(calls, c, anchor, anchor + window);
  }

  /** Every window ever opened, from its anchor on, accepts at most the limit. */
  lemma {:induction false} AnchoredBound(calls: seq<Call>, limit: nat, window: real, p: nat)
    requires Steady(calls, limit, window) && 0 < p <= |calls|
    ensures var anchor := BucketAfter(calls[..p]).value.start;
      && AcceptedDuring(calls, anchor, window) <= limit
      && (BucketAfter(calls).value.start == anchor || BucketAfter(calls).value.start >= anchor + window)
    decreases |calls| - p
  {
    if p == |calls| {
      assert calls[..p] == calls;
      CurrentWindow(calls, limit, window);
    } else {
      var n := |calls| - 1;
      assert calls == calls[..n] + [calls[n]] && calls[..n][..p] == calls[..p];
      AnchoredBound(calls[..n], limit, window, p);
      WindowClosesOnce(calls[..n], calls[n], limit, window, BucketAfter(calls[..p]).value.start);
    }
  }

  // ---------------------------------------------------------------- a decision is the budget of its window

  lemma {:induction false} BucketCounts(calls: seq<Call>, limit: nat, window: real)
    requires Steady(calls, limit, window) && calls != []
    ensures var b := BucketAfter(calls).value; b.count == AcceptedDuring(calls, b.start, window)
    decreases |calls|
  {
    var n := |calls| - 1;
    var sooner, c := calls[..n], calls[n];
    assert calls == sooner + [c];
    CurrentWindow(calls, limit, window);
    if n > 0 {
      BucketCounts(sooner, limit, window);
      if c.now - BucketAfter(sooner).value.start >= window {
        NothingLater(sooner, c, limit, window);
      }
    } else {
      assert AcceptedIn(sooner, c.now, c.now + window) == 0;
    }
    OneMoreCounted(sooner, c, limit, window);
  }

  lemma OneMoreCounted(calls: seq<Call>, c: Call, limit: nat, window: real)
    requires limit >= 1 && c.limit == limit && c.window == window && BucketAfter(calls + [c]).Some?
    requires var b := Current(BucketAfter(calls), c);
      b.count == AcceptedDuring(calls, b.start, window) && b.start <= c.now < b.start + window
    ensures var b := BucketAfter(calls + [c]).value; b.count == AcceptedDuring(calls + [c], b.start, window)
  {
    var b := Current(BucketAfter(calls), c);
    AcceptedNext(calls, c, b.start, b.start + window);
    assert (calls + [c])[..|calls|] == calls;
  }

  /** A call that opens a window comes after everything before it. */
  lemma NothingLater(calls: seq<Call>, c: Call, limit: nat, window: real)
    requires Steady(calls + [c], limit, window) && calls != []
    requires c.now - BucketAfter(calls).value.start >= window
    ensures AcceptedDuring(calls, c.now, window) == 0
  {
    assert calls == (calls + [c])[..|calls|];
    HistoryIsBounded(calls, limit, window);
  }

  /** Each call falls into a window that some call opened, [start, start + window). It is allowed exactly if fewer than
      `limit` calls were accepted there before it, and is told how many are then left; a refused one is told 0. */
  lemma DecisionIsTheBudget(calls: seq<Call>, i: nat, limit: nat, window: real) returns (start: real)
    requires Steady(calls, limit, window) && i < |calls|
    ensures start <= calls[i].now < start + window && exists p :: 0 <= p <= i && calls[p].now == start
    ensures var used := AcceptedDuring(calls[..i], start, window);
      && (DecisionAt(calls, i).allowed <==> used < limit)
      && DecisionAt(calls, i).remaining == if used < limit then limit - used - 1 else 0
  {
    var sooner, c := calls[..i], calls[i];
    var w := Current(BucketAfter(sooner), c);
    start := w.start;
    StartIsACall(calls, i, limit, window);
    if i > 0 {
      BucketCounts(sooner, limit, window);
      CurrentWindow(sooner, limit, window);
      assert Steady(sooner + [c], limit, window);
      if c.now - BucketAfter(sooner).value.start >= window {
        NothingLater(sooner, c, limit, window);
      }
      assert sooner[i - 1].now <= c.now;
    } else {
      assert sooner == [];
    }
  }

  lemma {:induction false} StartIsACall(calls: seq<Call>, i: nat, limit: nat, window: real)
    requires Steady(calls, limit, window) && i < |calls|
    ensures exists p :: 0 <= p <= i && calls[p].now == Current(BucketAfter(calls[..i]), calls[i]).start
    decreases i
  {
    if i > 0 && calls[i].now - BucketAfter(calls[..i]).value.start < window {
      StartIsACall(calls, i - 1, limit, window);
      assert calls[..i][..i - 1] == calls[..i - 1];
    } else {
      assert calls[i].now == Current(BucketAfter(calls[..i]), calls[i]).start;
    }
  }

  // ---------------------------------------------------------------- the bound is attained

  function Repeated(c: Call, m: nat): (cs: seq<Call>)
    ensures |cs| == m && forall i :: 0 <= i < m ==> cs[i] == c
  {
    if m == 0 then [] else Repeated(c, m - 1) + [c]
  }

  /** One more call: the bucket it leads to and whether it counts in [from, to). */
  lemma OneMore(calls: seq<Call>, c: Call, b: Option<Bucket>, from: real, to: real)
    requires BucketAfter(calls) == b && from <= c.now < to
    ensures BucketAfter(calls + [c]) == Some(Next(b, c))
    ensures AcceptedIn(calls + [c], from, to) == AcceptedIn(calls, from, to) + (if Decide(b, c).allowed then 1 else 0)
  {
    AcceptedNext(calls, c, from, to);
    assert (calls + [c])[..|calls|] == calls;
  }

  /** The key's bucket after these calls, and how many of them were accepted in [from, to). */
  ghost predicate Reaches(calls: seq<Call>, b: Bucket, from: real, to: real, accepted: nat) {
    BucketAfter(calls) == Some(b) && AcceptedIn(calls, from, to) == accepted
  }

  lemma RoomForOne(calls: seq<Call>, c: Call, b: Bucket, from: real, to: real, accepted: nat)
    requires Reaches(calls, b, from, to, accepted) && from <= c.now < to
    requires b.count < c.limit && c.now - b.start < c.window
    ensures Reaches(calls + [c], Bucket(b.start, b.count + 1), from, to, accepted + 1)
  {
    OneMore(calls, c, Some(b), from, to);
  }

  /** Calls that fit the budget of the current window are all accepted, whatever came before. */
  lemma {:induction false} RepeatsAreAccepted(calls: seq<Call>, c: Call, m: nat, b: Bucket, from: real, to: real,
                                              accepted: nat)
    requires Reaches(calls, b, from, to, accepted) && from <= c.now < to
    requires b.count + m <= c.limit && c.now - b.start < c.window
    ensures Reaches(calls + Repeated(c, m), Bucket(b.start, b.count + m), from, to, accepted + m)
    decreases m
  {
    if m == 0 {
      assert calls + Repeated(c, 0) == calls;
    } else {
      RoomForOne(calls, c, b, from, to, accepted);
      RepeatsAreAccepted(calls + [c], c, m - 1, Bucket(b.start, b.count + 1), from, to, accepted + 1);
      assert calls + Repeated(c, m) == calls + [c] + Repeated(c, m - 1);
    }
  }

  /** An anchor, the rest of its window's budget half a window later, and a full budget when it ends. */
  function Burst(key: string, limit: nat, window: real): seq<Call>
    requires limit >= 1
  {
    var half, end := Call(key, limit, window, window / 2.0), Call(key, limit, window, window);
    [Call(key, limit, window, 0.0)] + Repeated(half, limit - 1) + [end] + Repeated(end, limit - 1)
  }

  lemma BurstIsSteady(key: string, limit: nat, window: real)
    requires limit >= 1 && window > 0.0
    ensures Steady(Burst(key, limit, window), limit, window)
  {
  }

  lemma SlidingBoundIsAttained(key: string, limit: nat, window: real)
    requires limit >= 1 && window > 0.0
    ensures Steady(Burst(key, limit, window), limit, window)
    ensures AcceptedDuring(Burst(key, limit, window), window / 2.0, window) == 2 * limit - 1
  {
    BurstIsSteady(key, limit, window);
    var half, end := Call(key, limit, window, window / 2.0), Call(key, limit, window, window);
    var from, to := window / 2.0, window / 2.0 + window;
    var anchor := [Call(key, limit, window, 0.0)];
    AnchorAlone(anchor, from, to);
    RepeatsAreAccepted(anchor, half, limit - 1, Bucket(0.0, 1), from, to, 0);
    SecondWindow(anchor + Repeated(half, limit - 1), end, limit, from, to, limit - 1);
  }

  lemma SecondWindow(s: seq<Call>, end: Call, limit: nat, from: real, to: real, accepted: nat)
    requires Reaches(s, Bucket(0.0, limit), from, to, accepted) && limit >= 1 && end.limit == limit
    requires end.now == end.window > 0.0 && from <= end.now < to
    ensures Reaches(s + [end] + Repeated(end, limit - 1), Bucket(end.now, limit), from, to, accepted + limit)
  {
    NewWindow(s, end, Bucket(0.0, limit), from, to, accepted);
    RepeatsAreAccepted(s + [end], end, limit - 1, Bucket(end.now, 1), from, to, accepted + 1);
  }

  lemma NewWindow(s: seq<Call>, c: Call, b: Bucket, from: real, to: real, accepted: nat)
    requires Reaches(s, b, from, to, accepted) && c.limit >= 1
    requires c.now - b.start >= c.window && from <= c.now < to
    ensures Reaches(s + [c], Bucket(c.now, 1), from, to, accepted + 1)
  {
    OneMore(s, c, Some(b), from, to);
  }

  lemma AnchorAlone(anchor: seq<Call>, from: real, to: real)
    requires |anchor| == 1 && anchor[0].now == 0.0 && anchor[0].limit >= 1 && anchor[0].window > 0.0 && from > 0.0
    ensures Reaches(anchor, Bucket(0.0, 1), from, to, 0)
  {
    assert anchor[..0] == [];
  }
}
